/**
 * The parts of Go's `strings` package that the core relies on:
 * `Index`, `Split`, `Join` and `HasPrefix`, for a non-empty separator.
 */
module GoStrings {
  import opened Wrappers

  /** `sep` occurs in `s` starting at position `i`. */
  predicate OccursAt(s: string, sep: string, i: nat) {
    i + |sep| <= |s| && s[i..i + |sep|] == sep
  }

  /** `sep` occurs somewhere in `s` (Go's `strings.Contains`). */
  ghost predicate Occurs(s: string, sep: string) {
    exists i: nat :: OccursAt(s, sep, i)
  }

  /** The first occurrence of `sep` in `s` at or after `k`. */
  function IndexFrom(s: string, sep: string, k: nat): (r: Option<nat>)
    decreases |s| - k
    ensures r.Some? ==> k <= r.value && OccursAt(s, sep, r.value)
    ensures forall j: nat :: k <= j && (r.None? || j < r.value) ==> !OccursAt(s, sep, j)
  {
    if k + |sep| > |s| then None
    else if s[k..k + |sep|] == sep then Some(k)
    else IndexFrom(s, sep, k + 1)
  }

  /** Go's `strings.Index`: the first occurrence of `sep` in `s`, if any. */
  function Index(s: string, sep: string): (r: Option<nat>)
    ensures r.Some? ==> OccursAt(s, sep, r.value)
    ensures r.Some? ==> forall j: nat :: j < r.value ==> !OccursAt(s, sep, j)
    ensures r.None? <==> !Occurs(s, sep)
  {
    IndexFrom(s, sep, 0)
  }

  /** An occurrence with none before it is the one `Index` finds. */
  lemma IndexIs(s: string, sep: string, i: nat)
    requires OccursAt(s, sep, i)
    requires forall j: nat :: j < i ==> !OccursAt(s, sep, j)
    ensures Index(s, sep) == Some(i)
  {
    assert Occurs(s, sep);
  }

  /** A character absent from `a` is found first where `b` starts it. */
  lemma IndexOfChar(a: string, c: char, b: string)
    requires c !in a && |b| > 0 && b[0] == c
    ensures Index(a + b, [c]) == Some(|a|)
  {
    var s := a + b;
    assert s[|a|..|a| + 1] == [c];
    forall j: nat | j < |a| ensures !OccursAt(s, [c], j) {
      assert s[j..j + 1] == [a[j]];
    }
    IndexIs(s, [c], |a|);
  }

  /** A character absent from `s` is not found in it. */
  lemma NoIndexOfChar(s: string, c: char)
    requires c !in s
    ensures Index(s, [c]) == None
  {
    forall j: nat | j + 1 <= |s| ensures !OccursAt(s, [c], j) {
      assert s[j..j + 1] == [s[j]];
    }
  }

  /**
   * Go's `strings.Split`: the pieces of `s` between the occurrences of
   * `sep`, scanning from the left. There is always at least one piece.
   */
  function Split(s: string, sep: string): (parts: seq<string>)
    requires |sep| > 0
    decreases |s|
    ensures |parts| >= 1
    ensures Occurs(s, sep) <==> |parts| >= 2
    ensures forall k: nat, j: nat :: k < |parts| ==> !OccursAt(parts[k], sep, j)
  {
    match Index(s, sep)
    case None => [s]
    case Some(i) =>
      var head := s[..i];
      assert forall j: nat :: !OccursAt(head, sep, j) by {
        forall j: nat | OccursAt(head, sep, j) ensures false {
          assert s[j..j + |sep|] == head[j..j + |sep|];
          assert OccursAt(s, sep, j);
        }
      }
      [head] + Split(s[i + |sep|..], sep)
  }

  /** Go's `strings.Join`: the elements with `sep` between each adjacent pair. */
  function Join(elems: seq<string>, sep: string): string {
    if |elems| == 0 then ""
    else if |elems| == 1 then elems[0]
    else elems[0] + sep + Join(elems[1..], sep)
  }

  /** Go's `strings.HasPrefix`. */
  predicate HasPrefix(s: string, prefix: string) {
    |prefix| <= |s| && s[..|prefix|] == prefix
  }

  /** Joining one element in front of a non-empty list inserts one separator. */
  lemma JoinCons(head: string, tail: seq<string>, sep: string)
    requires |tail| >= 1
    ensures Join([head] + tail, sep) == head + sep + Join(tail, sep)
  {
    assert ([head] + tail)[1..] == tail;
  }

  /** Splitting and joining again with the same separator gives back `s`. */
  lemma {:induction false} JoinSplit(s: string, sep: string)
    requires |sep| > 0
    decreases |s|
    ensures Join(Split(s, sep), sep) == s
  {
    match Index(s, sep)
    case None =>
    case Some(i) =>
      var rest := s[i + |sep|..];
      JoinSplit(rest, sep);
      JoinCons(s[..i], Split(rest, sep), sep);
      assert s == s[..i] + sep + rest;
  }

  /** Joining every piece but the first gives back the text after the first separator ("" if none). */
  lemma SplitTail(s: string, sep: string)
    requires |sep| > 0
    ensures Join(Split(s, sep)[1..], sep) == match Index(s, sep) {
      case None => ""
      case Some(i) => s[i + |sep|..]
    }
  {
    if Index(s, sep).Some? {
      SplitTailAfter(s, sep, Index(s, sep).value);
    }
  }

  lemma SplitTailAfter(s: string, sep: string, i: nat)
    requires |sep| > 0 && Index(s, sep) == Some(i)
    ensures Join(Split(s, sep)[1..], sep) == s[i + |sep|..]
  {
    var rest := s[i + |sep|..];
    var parts := Split(s, sep);
    assert parts == [s[..i]] + Split(rest, sep);
    assert parts[1..] == Split(rest, sep);
    JoinSplit(rest, sep);
  }

  /**
   * Joining and splitting again gives back the parts, provided the
   * separator's first character occurs neither in any part nor later in
   * the separator itself (so every occurrence is one the join inserted).
   */
  lemma {:induction false} SplitJoin(parts: seq<string>, sep: string)
    requires |parts| >= 1 && |sep| > 0
    requires sep[0] !in sep[1..]
    requires forall k :: 0 <= k < |parts| ==> sep[0] !in parts[k]
    decreases |parts|
    ensures Split(Join(parts, sep), sep) == parts
  {
    var p := parts[0];
    if |parts| == 1 {
      assert !Occurs(p, sep);
    } else {
      var rest := Join(parts[1..], sep);
      var s := p + sep + rest;
      assert Join(parts, sep) == s;
      assert OccursAt(s, sep, |p|) by { assert s[|p|..|p| + |sep|] == sep; }
      forall j: nat | j < |p| ensures !OccursAt(s, sep, j) {
        assert s[j] == p[j];
      }
      IndexIs(s, sep, |p|);
      assert s[..|p|] == p;
      assert s[|p| + |sep|..] == rest;
      SplitJoin(parts[1..], sep);
      assert Split(s, sep) == [p] + Split(rest, sep);
      assert parts == [p] + parts[1..];
    }
  }
}
