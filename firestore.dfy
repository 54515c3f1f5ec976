/**
 * The Firestore document store as the core uses it: a map from document
 * path ("users/<id>/tokens/user", "popular_tracks/<id>") to the document's
 * fields. Writes are `Set` (replace the document), `Set` with `MergeAll`
 * (replace only the given fields) and a merged `Increment`. Whether the
 * backend accepts a write is an input: `failure` is its error message.
 */
module Firestore {
  import opened Wrappers

  datatype Value = Str(s: string) | Int(i: int) | Timestamp(t: int)

  type Doc = map<string, Value>

  /** The document at `path`, or an empty one if there is none. */
  function DocAt(docs: map<string, Doc>, path: string): Doc {
    if path in docs then docs[path] else map[]
  }

  /** `MergeAll`: the given fields take their new values, every other field is kept. */
  function Merge(doc: Doc, fields: Doc): (r: Doc)
    ensures r.Keys == doc.Keys + fields.Keys
    ensures forall f :: f in fields ==> r[f] == fields[f]
    ensures forall f :: f in doc && f !in fields ==> r[f] == doc[f]
  {
    doc + fields
  }

  /**
   * `firestore.Increment(amount)` merged into `field`: an integer field grows by
   * `amount`; a missing or non-integer field is set to `amount`.
   */
  function Incremented(doc: Doc, field: string, amount: int): (r: Doc)
    ensures r.Keys == doc.Keys + {field}
    ensures field in doc && doc[field].Int? ==> r[field] == Int(doc[field].i + amount)
    ensures !(field in doc && doc[field].Int?) ==> r[field] == Int(amount)
    ensures forall f :: f in doc && f != field ==> r[f] == doc[f]
  {
    var current := if field in doc && doc[field].Int? then doc[field].i else 0;
    Merge(doc, map[field := Int(current + amount)])
  }

  /** Merging the same fields twice is merging them once. */
  lemma MergeIdempotent(doc: Doc, fields: Doc)
    ensures Merge(Merge(doc, fields), fields) == Merge(doc, fields)
  {
  }

  class Store {
    var docs: map<string, Doc>

    constructor ()
      ensures docs == map[]
    {
      docs := map[];
    }

    /** `Doc(path).Get`: the document, or NotFound. */
    method Get(path: string) returns (d: Option<Doc>)
      ensures d.Some? <==> path in docs
      ensures d.Some? ==> d.value == docs[path]
    {
      d := if path in docs then Some(docs[path]) else None;
    }

    /** `Doc(path).Set(data)`: the document becomes exactly `data`. */
    method Set(path: string, data: Doc, failure: Option<string>) returns (err: Option<string>)
      modifies this
      ensures err == failure
      ensures docs == if failure.None? then old(docs)[path := data] else old(docs)
    {
      err := failure;
      if failure.None? {
        docs := docs[path := data];
      }
    }

    /** `Doc(path).Set(fields, MergeAll)`: creates the document if needed and merges `fields`. */
    method SetMergeAll(path: string, fields: Doc, failure: Option<string>) returns (err: Option<string>)
      modifies this
      ensures err == failure
      ensures docs == if failure.None? then old(docs)[path := Merge(DocAt(old(docs), path), fields)] else old(docs)
    {
      err := failure;
      if failure.None? {
        docs := docs[path := Merge(DocAt(docs, path), fields)];
      }
    }

    /** `Doc(path).Set({field: Increment(amount)}, MergeAll)`. */
    method IncrementMergeAll(path: string, field: string, amount: int, failure: Option<string>) returns (err: Option<string>)
      modifies this
      ensures err == failure
      ensures docs == if failure.None? then old(docs)[path := Incremented(DocAt(old(docs), path), field, amount)] else old(docs)
    {
      err := failure;
      if failure.None? {
        docs := docs[path := Incremented(DocAt(docs, path), field, amount)];
      }
    }
  }
}
