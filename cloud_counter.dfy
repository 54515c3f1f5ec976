/**
 * CloudFunctions/CloudCounter/cloudcounter.go: a Cloud Function triggered
 * by a change to a track document. It takes the changed document's ID from
 * the event and adds one to the `count` field of the document with that ID
 * in the `popular_tracks` collection, creating either if need be. The
 * counters live in a collection of their own so that counting does not
 * trigger the function again.
 */
module CloudCounter {
  import opened Wrappers
  import Firestore
  import FirestoreEvent
  import GoStrings

  const CountField: string := "count"

  /** The counter document for a document ID. */
  function CounterPath(doc: string): (r: string)
    ensures GoStrings.HasPrefix(r, "popular_tracks/") && r[15..] == doc
  {
    "popular_tracks/" + doc
  }

  /** The counter value a document holds: its integer `count`, or 0. */
  function CountOf(doc: Firestore.Doc): int {
    if CountField in doc && doc[CountField].Int? then doc[CountField].i else 0
  }

  /** How one invocation ends for an event on `name` when the write fails with `writeFailure`. */
  function CountOutcome(name: string, writeFailure: Option<string>): FirestoreEvent.Outcome {
    if FirestoreEvent.FullPath(name).None? then FirestoreEvent.Panicked
    else if writeFailure.None? then FirestoreEvent.Returned(None)
    else FirestoreEvent.Returned(Some("beancounter: " + writeFailure.value))
  }

  /** The documents after that invocation: the counter incremented if the write went through. */
  function CountedDocs(docs: map<string, Firestore.Doc>, name: string, writeFailure: Option<string>)
    : map<string, Firestore.Doc>
  {
    match FirestoreEvent.FullPath(name)
    case None => docs
    case Some(fullPath) =>
      var path := CounterPath(FirestoreEvent.DocumentID(fullPath));
      if writeFailure.None? then docs[path := Firestore.Incremented(Firestore.DocAt(docs, path), CountField, 1)]
      else docs
  }

  /**
   * CloudCounter: on an event whose resource name holds "/documents/", adds
   * one to the counter of the changed document and returns the write's
   * error, wrapped, if there is one; on any other name it panics before
   * writing anything.
   */
  method CloudCounter(db: Firestore.Store, e: FirestoreEvent.Event, writeFailure: Option<string>)
    returns (outcome: FirestoreEvent.Outcome)
    modifies db
    ensures outcome == CountOutcome(e.value.name, writeFailure)
    ensures db.docs == CountedDocs(old(db.docs), e.value.name, writeFailure)
  {
    var fullPath := FirestoreEvent.FullPath(e.value.name);
    if fullPath.None? {
      return FirestoreEvent.Panicked;
    }
    var doc := FirestoreEvent.DocumentID(fullPath.value);
    var err := db.IncrementMergeAll(CounterPath(doc), CountField, 1, writeFailure);
    if err.Some? {
      return FirestoreEvent.Returned(Some("beancounter: " + err.value));
    }
    return FirestoreEvent.Returned(None);
  }

  /**
   * An event on a track document "<prefix>/documents/<collection>/<id>"
   * whose write succeeds adds exactly one to the counter "popular_tracks/<id>",
   * keeps that counter's other fields, and leaves every other document as it was.
   */
  lemma EventCountsTrack(docs: map<string, Firestore.Doc>, prefix: string, collection: string, id: string)
    requires !GoStrings.Occurs(prefix + "/documents", FirestoreEvent.DocumentsSep)
    requires '/' !in collection
    requires !GoStrings.Occurs(collection + "/" + id, FirestoreEvent.DocumentsSep)
    ensures var name := prefix + FirestoreEvent.DocumentsSep + collection + "/" + id;
      var after := CountedDocs(docs, name, None);
      var path := CounterPath(id);
      path in after && CountOf(after[path]) == CountOf(Firestore.DocAt(docs, path)) + 1
      && (forall f :: f in Firestore.DocAt(docs, path) && f != CountField ==>
            f in after[path] && after[path][f] == Firestore.DocAt(docs, path)[f])
      && (forall p :: p != path ==> (p in after <==> p in docs) && (p in docs ==> after[p] == docs[p]))
  {
    FirestoreEvent.DocumentIDOfName(prefix, collection, id);
  }

  /** The counter document after `n` successful increments. */
  function Recounted(doc: Firestore.Doc, n: nat): Firestore.Doc {
    if n == 0 then doc else Firestore.Incremented(Recounted(doc, n - 1), CountField, 1)
  }

  /** `n` successful events on one document add `n` to its counter and touch no other field. */
  lemma {:induction false} RecountedAddsUp(doc: Firestore.Doc, n: nat)
    ensures CountOf(Recounted(doc, n)) == CountOf(doc) + n
    ensures n > 0 ==> CountField in Recounted(doc, n) && Recounted(doc, n)[CountField].Int?
    ensures forall f :: f != CountField ==>
      (f in Recounted(doc, n) <==> f in doc) && (f in doc ==> Recounted(doc, n)[f] == doc[f])
  {
    if n > 0 {
      var prev := Recounted(doc, n - 1);
      RecountedAddsUp(doc, n - 1);
      assert Recounted(doc, n) == Firestore.Incremented(prev, CountField, 1);
      assert CountOf(Recounted(doc, n)) == CountOf(prev) + 1;
    }
  }
}
