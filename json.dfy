/**
 * A JSON value as a request body carries it, with the object's properties
 * in the order the body gives them, JavaScript truthiness, and the two
 * property operations the handlers use: reading `o[k]` and writing `o[k] = v`
 * (which replaces an existing property where it stands, or adds it at the end).
 */
module Json {
  import opened Common

  datatype Value =
    | Null
    | Bool(b: bool)
    | Num(n: real)
    | Str(s: string)
    | Arr(items: seq<Value>)
    | Obj(props: seq<Prop>)

  datatype Prop = Prop(key: string, value: Value)

  /** JavaScript truthiness of a value; arrays and objects are always truthy. */
  predicate Truthy(v: Value) {
    match v
    case Null => false
    case Bool(b) => b
    case Num(n) => n != 0.0
    case Str(s) => s != ""
    case Arr(_) => true
    case Obj(_) => true
  }

  predicate HasKey(k: string, p: Prop) {
    p.key == k
  }

  function KeyIs(k: string): Prop -> bool {
    (p: Prop) => HasKey(k, p)
  }

  /** `o[k]`: the value of the first property named `k`, or `undefined`. */
  function Get(props: seq<Prop>, k: string): (r: Option<Value>)
    ensures r.None? <==> forall i :: 0 <= i < |props| ==> props[i].key != k
    ensures r.Some? ==> exists i :: 0 <= i < |props| && props[i] == Prop(k, r.value)
  {
    var i := FirstIndex(props, KeyIs(k));
    if i == -1 then None else Some(props[i].value)
  }

  /** `o[k] = v`. */
  function Put(props: seq<Prop>, k: string, v: Value): (r: seq<Prop>)
    ensures Get(r, k) == Some(v)
    ensures forall other :: other != k ==> Get(r, other) == Get(props, other)
    ensures |props| <= |r| <= |props| + 1
  {
    var i := FirstIndex(props, KeyIs(k));
    if i == -1 then
      PutAppendKeeps(props, k, v);
      props + [Prop(k, v)]
    else
      PutReplaceKeeps(props, i, k, v);
      props[i := Prop(k, v)]
  }

  lemma PutAppendKeeps(props: seq<Prop>, k: string, v: Value)
    requires forall i :: 0 <= i < |props| ==> props[i].key != k
    ensures Get(props + [Prop(k, v)], k) == Some(v)
    ensures forall other :: other != k ==> Get(props + [Prop(k, v)], other) == Get(props, other)
  {
    var r := props + [Prop(k, v)];
    assert forall j :: 0 <= j < |r| ==> (KeyIs(k)(r[j]) <==> r[j].key == k);
    assert forall j :: 0 <= j < |props| ==> r[j] == props[j];
    assert KeyIs(k)(r[|props|]);
    assert FirstIndex(r, KeyIs(k)) == |props|;
    forall other | other != k
      ensures Get(r, other) == Get(props, other)
    {
      assert forall j :: 0 <= j < |r| ==> (KeyIs(other)(r[j]) <==> r[j].key == other);
      assert forall j :: 0 <= j < |props| ==> r[j] == props[j];
      var j := FirstIndex(props, KeyIs(other));
      if j == -1 {
        assert FirstIndex(r, KeyIs(other)) == -1;
      } else {
        assert FirstIndex(r, KeyIs(other)) == j;
      }
    }
  }

  lemma PutReplaceKeeps(props: seq<Prop>, i: int, k: string, v: Value)
    requires 0 <= i < |props| && props[i].key == k
    requires forall j :: 0 <= j < i ==> props[j].key != k
    ensures Get(props[i := Prop(k, v)], k) == Some(v)
    ensures forall other :: other != k ==> Get(props[i := Prop(k, v)], other) == Get(props, other)
  {
    var r := props[i := Prop(k, v)];
    assert forall j :: 0 <= j < |r| ==> (KeyIs(k)(r[j]) <==> r[j].key == k);
    assert forall j :: 0 <= j < i ==> r[j] == props[j];
    assert KeyIs(k)(r[i]);
    assert FirstIndex(r, KeyIs(k)) == i;
    forall other | other != k
      ensures Get(r, other) == Get(props, other)
    {
      assert forall j :: 0 <= j < |r| ==> (r[j].key == other <==> props[j].key == other);
      assert forall j :: 0 <= j < |r| && props[j].key == other ==> r[j] == props[j];
      assert forall j :: 0 <= j < |r| ==> (KeyIs(other)(r[j]) <==> r[j].key == other);
      assert forall j :: 0 <= j < |props| ==> (KeyIs(other)(props[j]) <==> props[j].key == other);
      var j := FirstIndex(props, KeyIs(other));
      if j == -1 {
        assert FirstIndex(r, KeyIs(other)) == -1;
      } else {
        assert FirstIndex(r, KeyIs(other)) == j;
      }
    }
  }
}
