/**
 * CloudFunctions/beancouner.go: HelloFirestore, the first version of the
 * counting Cloud Function. It reads the event's metadata from its context
 * first and gives up if there is none; otherwise it counts the event
 * exactly as CloudCounter does.
 */
module Beancounter {
  import opened Wrappers
  import Firestore
  import FirestoreEvent
  import CloudCounter

  /**
   * HelloFirestore: a missing event context is returned as a wrapped error
   * with nothing written; otherwise the counter of the changed document is
   * incremented as by CloudCounter, with the same outcome.
   */
  method HelloFirestore(db: Firestore.Store, e: FirestoreEvent.Event,
                        metadataFailure: Option<string>, writeFailure: Option<string>)
    returns (outcome: FirestoreEvent.Outcome)
    modifies db
    ensures metadataFailure.Some? ==>
      outcome == FirestoreEvent.Returned(Some("metadata.FromContext: " + metadataFailure.value))
      && db.docs == old(db.docs)
    ensures metadataFailure.None? ==>
      outcome == CloudCounter.CountOutcome(e.value.name, writeFailure)
      && db.docs == CloudCounter.CountedDocs(old(db.docs), e.value.name, writeFailure)
  {
    if metadataFailure.Some? {
      return FirestoreEvent.Returned(Some("metadata.FromContext: " + metadataFailure.value));
    }
    outcome := CloudCounter.CloudCounter(db, e, writeFailure);
  }
}
