/**
 * The JSON-like objects the run record keeps as custom parameters, and lodash's `_.merge`
 * on them. Arrays are not part of this model.
 */
module Lodash {

  datatype Json = JUndefined | JNull | JBool(b: bool) | JNum(n: int) | JStr(s: string) | JObj(fields: map<string, Json>)

  /**
   * `_.merge(a, b)` for one value: two objects are merged key by key; an object merged onto a
   * non-object is copied; any other source value replaces the destination. Within an object an
   * `undefined` source value leaves an existing key alone (and is copied onto a missing one).
   */
  function Merge(a: Json, b: Json): (r: Json)
    ensures b.JObj? <==> r.JObj?
    ensures a.JObj? && b.JObj? ==> r.fields.Keys == a.fields.Keys + b.fields.Keys
    ensures !b.JObj? ==> r == b
    decreases b
  {
    if a.JObj? && b.JObj? then JObj(MergeFields(a.fields, b.fields)) else b
  }

  /** `_.merge` of two objects' fields. */
  function MergeFields(a: map<string, Json>, b: map<string, Json>): (r: map<string, Json>)
    ensures r.Keys == a.Keys + b.Keys
    ensures forall k :: k in a && k !in b ==> r[k] == a[k]
    ensures forall k :: k in b && k !in a ==> r[k] == b[k]
    ensures forall k :: k in a && k in b && b[k].JUndefined? ==> r[k] == a[k]
    ensures forall k :: k in a && k in b && !b[k].JUndefined? && !b[k].JObj? ==> r[k] == b[k]
    ensures forall k :: k in a && k in b && !b[k].JUndefined? ==> r[k] == Merge(a[k], b[k])
    decreases JObj(b), 0
  {
    map k | k in a.Keys + b.Keys ::
      if k in b then
        if k in a then (if b[k].JUndefined? then a[k] else Merge(a[k], b[k])) else b[k]
      else a[k]
  }

  /** Merging a value onto itself changes nothing. */
  lemma {:induction false} MergeSelf(x: Json)
    ensures Merge(x, x) == x
    decreases x
  {
    if x.JObj? {
      forall k | k in x.fields && !x.fields[k].JUndefined?
        ensures Merge(x.fields[k], x.fields[k]) == x.fields[k]
      {
        MergeSelf(x.fields[k]);
      }
      assert MergeFields(x.fields, x.fields) == x.fields;
    }
  }

  /** Merging the same source twice is the same as merging it once. */
  lemma {:induction false} MergeIdempotent(a: Json, b: Json)
    ensures Merge(Merge(a, b), b) == Merge(a, b)
    decreases b
  {
    if b.JObj? {
      var m := Merge(a, b);
      if a.JObj? {
        forall k | k in b.fields && !b.fields[k].JUndefined?
          ensures Merge(m.fields[k], b.fields[k]) == m.fields[k]
        {
          if k in a.fields {
            MergeIdempotent(a.fields[k], b.fields[k]);
          } else {
            MergeSelf(b.fields[k]);
          }
        }
        assert MergeFields(m.fields, b.fields) == m.fields;
      } else {
        MergeSelf(b);
      }
    }
  }

  /** `_.merge({}, b)` copies `b`. */
  lemma MergeOntoEmpty(b: map<string, Json>)
    ensures MergeFields(map[], b) == b
  {
  }
}
