/**
 * What the two counting Cloud Functions share: the Firestore event they
 * are triggered by, and how they find the changed document's ID in the
 * resource name "projects/<p>/databases/<d>/documents/<collection>/<id>".
 */
module FirestoreEvent {
  import opened Wrappers
  import GoStrings

  /** FirestoreValue, reduced to the resource name the functions read. */
  datatype FirestoreValue = FirestoreValue(name: string)

  /** FirestoreEvent: the document before and after the change. */
  datatype Event = Event(oldValue: FirestoreValue, value: FirestoreValue)

  /** How a function invocation ends: with the error it returns, or in a run-time panic. */
  datatype Outcome = Returned(err: Option<string>) | Panicked

  /** Where the database part of a resource name ends and the document path begins. */
  const DocumentsSep: string := "/documents/"

  /**
   * The document path: the second piece of the name split on "/documents/",
   * which exists only when the name contains that separator (taking it from
   * a name without one indexes past the end of the pieces). It is the text
   * after the first "/documents/", up to the next one if there is another.
   */
  function FullPath(name: string): (r: Option<string>)
    ensures r.Some? <==> GoStrings.Occurs(name, DocumentsSep)
    ensures r.Some? ==> !GoStrings.Occurs(r.value, DocumentsSep)
    ensures r == match GoStrings.Index(name, DocumentsSep) {
      case None => None
      case Some(i) =>
        var rest := name[i + |DocumentsSep|..];
        Some(match GoStrings.Index(rest, DocumentsSep) {
          case None => rest
          case Some(j) => rest[..j]
        })
    }
  {
    var parts := GoStrings.Split(name, DocumentsSep);
    assert GoStrings.Index(name, DocumentsSep).Some? ==>
      var rest := name[GoStrings.Index(name, DocumentsSep).value + |DocumentsSep|..];
      parts[1..] == GoStrings.Split(rest, DocumentsSep);
    if |parts| >= 2 then Some(parts[1]) else None
  }

  /**
   * The document ID: the path split on "/", the collection segment dropped,
   * the rest joined with "/" again. That is everything after the first '/',
   * and "" for a path with no '/' at all.
   */
  function DocumentID(fullPath: string): (doc: string)
    ensures doc == match GoStrings.Index(fullPath, "/") {
      case None => ""
      case Some(i) => fullPath[i + 1..]
    }
  {
    GoStrings.SplitTail(fullPath, "/");
    GoStrings.Join(GoStrings.Split(fullPath, "/")[1..], "/")
  }

  /**
   * For a resource name "<prefix>/documents/<collection>/<id>" the
   * functions recover exactly `<collection>/<id>` and then `<id>` (nested
   * slashes in the ID included), provided "/documents/" does not occur
   * earlier, the collection name has no '/', and the document path does
   * not itself contain "/documents/".
   */
  lemma DocumentIDOfName(prefix: string, collection: string, id: string)
    requires !GoStrings.Occurs(prefix + "/documents", DocumentsSep)
    requires '/' !in collection
    requires !GoStrings.Occurs(collection + "/" + id, DocumentsSep)
    ensures FullPath(prefix + DocumentsSep + collection + "/" + id) == Some(collection + "/" + id)
    ensures DocumentID(collection + "/" + id) == id
  {
    var rest := collection + "/" + id;
    FullPathOf(prefix, rest);
    assert prefix + DocumentsSep + collection + "/" + id == prefix + DocumentsSep + rest;
    assert rest == collection + ("/" + id);
    GoStrings.IndexOfChar(collection, '/', "/" + id);
  }

  /** The separator the name is split on first occurs right after `prefix`. */
  lemma SeparatorAfter(prefix: string, rest: string)
    requires !GoStrings.Occurs(prefix + "/documents", DocumentsSep)
    ensures GoStrings.Index(prefix + DocumentsSep + rest, DocumentsSep) == Some(|prefix|)
  {
    var name := prefix + DocumentsSep + rest;
    var head := prefix + "/documents";
    assert name[|prefix|..|prefix| + |DocumentsSep|] == DocumentsSep;
    forall j: nat | j < |prefix| ensures !GoStrings.OccursAt(name, DocumentsSep, j) {
      assert |DocumentsSep| == 11 && |head| == |prefix| + 10;
      assert !GoStrings.OccursAt(head, DocumentsSep, j);
      assert name[j..j + |DocumentsSep|] == head[j..j + |DocumentsSep|];
    }
    GoStrings.IndexIs(name, DocumentsSep, |prefix|);
  }

  /** The document path of "<prefix>/documents/<rest>" is `rest` when neither part hides another separator. */
  lemma FullPathOf(prefix: string, rest: string)
    requires !GoStrings.Occurs(prefix + "/documents", DocumentsSep)
    requires !GoStrings.Occurs(rest, DocumentsSep)
    ensures FullPath(prefix + DocumentsSep + rest) == Some(rest)
  {
    var name := prefix + DocumentsSep + rest;
    SeparatorAfter(prefix, rest);
    assert name[..|prefix|] == prefix;
    assert name[|prefix| + |DocumentsSep|..] == rest;
    assert GoStrings.Split(rest, DocumentsSep) == [rest];
    assert GoStrings.Split(name, DocumentsSep) == [prefix, rest];
  }

  /** A name whose document path has a single segment gives the empty document ID. */
  lemma DocumentIDOfSingleSegment(path: string)
    requires '/' !in path
    ensures DocumentID(path) == ""
  {
    GoStrings.NoIndexOfChar(path, '/');
  }
}
