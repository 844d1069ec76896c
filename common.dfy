/**
 * Shared vocabulary of the service model: identifiers, timestamps, the
 * optional and outcome wrappers that stand for `null` and for an HTTP error
 * response, the outbox entry a handler appends when it asks the notification
 * service for a delivery, and two list helpers that the handlers use in the
 * way JavaScript uses `findIndex` and `filter`.
 */
module Common {

  /** A document-store identifier (an ObjectId as a string). */
  type Id = string

  /** A point in time in milliseconds since the epoch, as `Date` holds it. */
  type Millis = int

  datatype Option<+T> = None | Some(value: T)

  /** A handler's result: the record it saved, or an HTTP status and error text. */
  datatype Outcome<+T> = Ok(value: T) | Err(code: int, error: string)

  /** A request to the notification service: who gets it and its `type`. */
  datatype Notice = Notice(recipient: Id, kind: string)

  /** `Model.findById(id)`: the stored record, or `null` when there is none. */
  function Lookup<V>(m: map<Id, V>, id: Id): (r: Option<V>)
    ensures r.Some? <==> id in m
    ensures r.Some? ==> r.value == m[id]
  {
    if id in m then Some(m[id]) else None
  }

  /** A query-string parameter is used only when present and not empty (JavaScript truthiness). */
  predicate Supplied(p: Option<string>) {
    p.Some? && p.value != ""
  }

  /** `findIndex`: the position of the first element satisfying `p`, or -1. */
  function FirstIndex<T>(s: seq<T>, p: T -> bool): (i: int)
    ensures -1 <= i < |s|
    ensures i == -1 <==> forall k :: 0 <= k < |s| ==> !p(s[k])
    ensures 0 <= i ==> p(s[i]) && forall k :: 0 <= k < i ==> !p(s[k])
  {
    if |s| == 0 then -1
    else if p(s[0]) then 0
    else
      var j := FirstIndex(s[1..], p);
      if j == -1 then -1 else j + 1
  }

  /** `s.filter(y => y !== x)`: every copy of `x` removed. */
  function RemoveAll<T(==,!new)>(s: seq<T>, x: T): (r: seq<T>)
    ensures |r| <= |s|
    ensures forall y :: y in r <==> y in s && y != x
  {
    if |s| == 0 then []
    else if s[0] == x then RemoveAll(s[1..], x)
    else [s[0]] + RemoveAll(s[1..], x)
  }

  /** Removing distributes over concatenation, so the kept elements stay in their order. */
  lemma {:induction false} RemoveAllAppend<T(!new)>(s: seq<T>, t: seq<T>, x: T)
    ensures RemoveAll(s + t, x) == RemoveAll(s, x) + RemoveAll(t, x)
  {
    if |s| == 0 {
      assert s + t == t;
    } else {
      assert (s + t)[1..] == s[1..] + t;
      RemoveAllAppend(s[1..], t, x);
    }
  }

  /** A list without `x` is left exactly as it was. */
  lemma {:induction false} RemoveAllAbsent<T(!new)>(s: seq<T>, x: T)
    requires x !in s
    ensures RemoveAll(s, x) == s
  {
    if |s| > 0 {
      assert x !in s[1..];
      RemoveAllAbsent(s[1..], x);
    }
  }

  /** No element occurs twice. */
  predicate NoDuplicates<T(==)>(s: seq<T>) {
    forall i, j :: 0 <= i < j < |s| ==> s[i] != s[j]
  }
}
