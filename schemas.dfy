/**
 * The API schema the client navigates by. The server describes every
 * resource by a node `{"pkey": <key field>, "children": {<name>: <node>}}`;
 * the client wraps the server's top-level answer as `{"children": <answer>}`
 * and reads a node's children with `schema['children'].iteritems()` and its
 * key field with `schema['pkey']`.
 *
 * The client itself keeps the schema as the decoded JSON it received, so a
 * malformed schema makes it crash; `Schema` is the well-formed tree, with
 * `ToJson`/`FromJson` relating it to the JSON the client holds.
 */
module Schemas {
  import opened Wrappers
  import opened PyText
  import opened PyValues

  /** A well-formed schema node; the root has no key field. */
  datatype Schema = Schema(children: map<PyStr, Schema>, pkey: Option<PyStr>)

  /** The JSON object that describes a node. */
  function ToJson(s: Schema): Json
    decreases s, 1
  {
    var kids := JObj(ChildNodes(s));
    if s.pkey.Some? then JObj(map["children" := kids, "pkey" := JStr(s.pkey.value)])
    else JObj(map["children" := kids])
  }

  /** The JSON node of each child. */
  function ChildNodes(s: Schema): (r: map<PyStr, Json>)
    decreases s, 0
  {
    map n | n in s.children :: ToJson(s.children[n])
  }

  /** Reads a node back from JSON: `children` must be an object of nodes and
      `pkey`, when present, a string. */
  function FromJson(j: Json): Option<Schema>
    decreases j
  {
    match j
    case JObj(f) =>
      if "children" in f && f["children"].JObj? && ("pkey" in f ==> f["pkey"].JStr?) then
        var kids := f["children"].fields;
        if forall n | n in kids :: FromJson(kids[n]).Some? then
          Some(Schema(map n | n in kids :: FromJson(kids[n]).value,
                      if "pkey" in f then Some(f["pkey"].s) else None))
        else None
      else None
    case _ => None
  }

  /** Reading back what `ToJson` wrote gives the same node. */
  lemma {:induction false} FromJsonToJson(s: Schema)
    ensures FromJson(ToJson(s)) == Some(s)
    decreases s
  {
    var kids := ChildNodes(s);
    forall n | n in s.children
      ensures FromJson(kids[n]) == Some(s.children[n])
    {
      FromJsonToJson(s.children[n]);
    }
    var back := map n | n in kids :: FromJson(kids[n]).value;
    assert back == s.children;
  }

  /** Distinct nodes are described by distinct JSON. */
  lemma ToJsonInjective(a: Schema, b: Schema)
    requires ToJson(a) == ToJson(b)
    ensures a == b
  {
    FromJsonToJson(a);
    FromJsonToJson(b);
  }

  /** `schema['children'].iteritems()`. */
  function ChildrenOf(schema: Json): (r: Result<map<PyStr, Json>, Crash>)
    ensures schema.JObj? && "children" in schema.fields ==> r == Items(schema.fields["children"])
    ensures schema.JObj? && "children" !in schema.fields ==> r == Err(KeyError(JStr("children")))
  {
    var v :- Subscript(schema, JStr("children"));
    Items(v)
  }

  /** `{'children': answer}`: the root node as the client stores it. */
  function Root(answer: Json): Json {
    JObj(map["children" := answer])
  }

  /** The root's children are the server's answer, if that is an object. */
  lemma RootChildren(answer: Json)
    ensures ChildrenOf(Root(answer)).Ok? <==> answer.JObj?
    ensures answer.JObj? ==> ChildrenOf(Root(answer)) == Ok(answer.fields)
    ensures !answer.JObj? ==> ChildrenOf(Root(answer)) == Err(AttributeError("iteritems"))
  {
  }

  /** A well-formed node's children are read without a crash, one JSON node per child. */
  lemma ChildrenOfWellFormed(s: Schema)
    ensures ChildrenOf(ToJson(s)) == Ok(ChildNodes(s))
  {
    var kids := JObj(ChildNodes(s));
    var j := ToJson(s);
    if s.pkey.Some? {
      assert j == JObj(map["children" := kids, "pkey" := JStr(s.pkey.value)]);
    } else {
      assert j == JObj(map["children" := kids]);
    }
    assert "children" in j.fields && j.fields["children"] == kids;
    assert Subscript(j, JStr("children")) == Ok(kids);
  }

  /** A well-formed node's key field is read without a crash when it has one. */
  lemma PkeyOfWellFormed(s: Schema)
    ensures s.pkey.Some? ==> Subscript(ToJson(s), JStr("pkey")) == Ok(JStr(s.pkey.value))
    ensures s.pkey.None? ==> Subscript(ToJson(s), JStr("pkey")) == Err(KeyError(JStr("pkey")))
  {
    assert "pkey" != "children";
  }
}
