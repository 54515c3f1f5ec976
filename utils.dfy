/**
 * The list and ID helpers of utils.go: batching IDs for Spotify lookups,
 * the batch fetcher built on it, order-preserving unique insert, removal
 * of play-history hiccups, and two string helpers.
 */
module Utils {
  import opened Wrappers
  import GoStrings

  /** spotify.ID */
  type TrackID = string

  // ---------------------------------------------------------------------
  // chunkIDs

  /** The chunks laid end to end. */
  function Flatten<T>(chunks: seq<seq<T>>): seq<T> {
    if chunks == [] then [] else Flatten(chunks[..|chunks| - 1]) + chunks[|chunks| - 1]
  }

  lemma {:induction false} FlattenAppend<T>(a: seq<seq<T>>, b: seq<seq<T>>)
    decreases |b|
    ensures Flatten(a + b) == Flatten(a) + Flatten(b)
  {
    if b != [] {
      var n := |b| - 1;
      assert (a + b)[..|a + b| - 1] == a + b[..n];
      assert (a + b)[|a + b| - 1] == b[n];
      FlattenAppend(a, b[..n]);
      calc {
        Flatten(a + b);
        Flatten(a + b[..n]) + b[n];
        Flatten(a) + Flatten(b[..n]) + b[n];
        Flatten(a) + Flatten(b);
      }
    } else {
      assert a + b == a;
    }
  }

  /**
   * The batches of `ids` for a batch size `size`: full batches of `size`
   * from the front and whatever remains in the last one, which is never
   * empty unless `ids` is; no IDs at all still make one (empty) batch.
   * With a size below 1 no batch ever has room, so after the initial
   * empty batch every ID gets a batch of its own.
   */
  function Chunked<T>(ids: seq<T>, size: int): (chunks: seq<seq<T>>)
    decreases |ids|
    ensures |chunks| >= 1
  {
    if size <= 0 then [[]] + Singles(ids)
    else if |ids| <= size then [ids]
    else [ids[..size]] + Chunked(ids[size..], size)
  }

  /** Every ID in a batch of its own. */
  function Singles<T>(ids: seq<T>): (r: seq<seq<T>>)
    ensures |r| == |ids|
  {
    if ids == [] then [] else Singles(ids[..|ids| - 1]) + [[ids[|ids| - 1]]]
  }

  /** One more ID either joins the last batch, if it has room, or opens a new one. */
  lemma ChunkedSnoc<T>(ids: seq<T>, x: T, size: int)
    ensures var c := Chunked(ids, size);
            Chunked(ids + [x], size)
            == if |c[|c| - 1]| < size then c[|c| - 1 := c[|c| - 1] + [x]] else c + [[x]]
  {
    if size <= 0 {
      assert (ids + [x])[..|ids|] == ids;
      assert Singles(ids + [x]) == Singles(ids) + [[x]];
    } else {
      ChunkedSnocPositive(ids, x, size);
    }
  }

  lemma {:induction false} ChunkedSnocPositive<T>(ids: seq<T>, x: T, size: int)
    requires size > 0
    decreases |ids|
    ensures var c := Chunked(ids, size);
            Chunked(ids + [x], size)
            == if |c[|c| - 1]| < size then c[|c| - 1 := c[|c| - 1] + [x]] else c + [[x]]
  {
    if |ids| == size {
      assert (ids + [x])[..size] == ids;
      assert (ids + [x])[size..] == [x];
    } else if |ids| > size {
      var head, tail := ids[..size], ids[size..];
      assert (ids + [x])[..size] == head;
      assert (ids + [x])[size..] == tail + [x];
      ChunkedSnocPositive(tail, x, size);
      var c := Chunked(tail, size);
      assert Chunked(ids, size) == [head] + c;
      assert Chunked(ids + [x], size) == [head] + Chunked(tail + [x], size);
    }
  }

  /** The batches hold exactly the IDs, in their original order. */
  lemma ChunkedFlatten<T>(ids: seq<T>, size: int)
    ensures Flatten(Chunked(ids, size)) == ids
  {
    if size <= 0 {
      SinglesFlatten(ids);
      FlattenCons<T>([], Singles(ids));
    } else {
      ChunkedFlattenPositive(ids, size);
    }
  }

  lemma {:induction false} ChunkedFlattenPositive<T>(ids: seq<T>, size: int)
    requires size > 0
    decreases |ids|
    ensures Flatten(Chunked(ids, size)) == ids
  {
    if |ids| <= size {
      FlattenOne(ids);
    } else {
      var head, tail := ids[..size], ids[size..];
      var rest := Chunked(tail, size);
      assert Chunked(ids, size) == [head] + rest;
      ChunkedFlattenPositive(tail, size);
      FlattenCons(head, rest);
      assert ids == head + tail;
    }
  }

  lemma FlattenCons<T>(head: seq<T>, rest: seq<seq<T>>)
    ensures Flatten([head] + rest) == head + Flatten(rest)
  {
    FlattenAppend([head], rest);
    FlattenOne(head);
  }

  lemma FlattenOne<T>(chunk: seq<T>)
    ensures Flatten([chunk]) == chunk
  {
    assert [chunk][..0] == [];
  }

  lemma {:induction false} SinglesFlatten<T>(ids: seq<T>)
    decreases |ids|
    ensures Flatten(Singles(ids)) == ids
  {
    if ids != [] {
      var n := |ids| - 1;
      SinglesFlatten(ids[..n]);
      var r := Singles(ids);
      assert r[..|r| - 1] == Singles(ids[..n]);
      assert ids == ids[..n] + [ids[n]];
    }
  }

  /** Every batch but the last is full. */
  predicate FullBefore<T>(c: seq<seq<T>>, size: int) {
    forall k :: 0 <= k < |c| - 1 ==> |c[k]| == size
  }

  /**
   * With a positive size every batch but the last is full, and the last
   * holds between 1 and `size` IDs (none only when there are no IDs).
   */
  lemma {:induction false} ChunkedSizes<T>(ids: seq<T>, size: int)
    requires size >= 1
    decreases |ids|
    ensures var c := Chunked(ids, size);
            && FullBefore(c, size)
            && |c[|c| - 1]| <= size
            && (ids != [] ==> |c[|c| - 1]| >= 1)
  {
    if |ids| > size {
      ChunkedSizes(ids[size..], size);
      ConsFull(ids[..size], Chunked(ids[size..], size), size);
    }
  }

  lemma ConsFull<T>(head: seq<T>, rest: seq<seq<T>>, size: int)
    requires |head| == size && |rest| >= 1 && FullBefore(rest, size)
    ensures FullBefore([head] + rest, size)
    ensures ([head] + rest)[|rest|] == rest[|rest| - 1]
  {
    var c := [head] + rest;
    forall k | 0 <= k < |c| - 1 ensures |c[k]| == size {
      if k > 0 { assert c[k] == rest[k - 1]; }
    }
  }

  /**
   * So the number of batches is max(1, ceil(|ids| / size)): just enough
   * batches of `size` to hold the IDs.
   */
  lemma {:induction false} ChunkedBounds<T>(ids: seq<T>, size: int)
    requires size >= 1
    decreases |ids|
    ensures ids == [] ==> |Chunked(ids, size)| == 1
    ensures ids != [] ==> (|Chunked(ids, size)| - 1) * size < |ids| <= |Chunked(ids, size)| * size
  {
    if |ids| > size {
      var m := |Chunked(ids[size..], size)|;
      ChunkedBounds(ids[size..], size);
      assert |Chunked(ids, size)| == m + 1;
      assert (m + 1) * size == m * size + size;
    }
  }

  /** The batch count as the ceiling division it amounts to. */
  lemma ChunkedCount<T>(ids: seq<T>, size: int)
    requires size >= 1
    ensures |Chunked(ids, size)| == if ids == [] then 1 else (|ids| + size - 1) / size
  {
    ChunkedBounds(ids, size);
    if ids != [] {
      CeilingDivision(|ids|, size, |Chunked(ids, size)|);
    }
  }

  /** `m` batches of `size` are just enough for `n` items exactly when m = ceil(n / size). */
  lemma CeilingDivision(n: int, size: int, m: int)
    requires size >= 1 && (m - 1) * size < n <= m * size
    ensures (n + size - 1) / size == m
  {
    var x := n + size - 1;
    assert m * size <= x < m * size + size;
    var q, r := x / size, x % size;
    assert x == q * size + r && 0 <= r < size;
    if q < m {
      MultiplyMonotonic(q + 1, m, size);
    } else if q > m {
      MultiplyMonotonic(m + 1, q, size);
    }
  }

  lemma MultiplyMonotonic(a: int, b: int, c: int)
    requires a <= b && c >= 0
    ensures a * c <= b * c
  {
    assert b * c - a * c == (b - a) * c;
  }

  /** chunkIDs: splits `ids` into batches of at most `chunkSize`, filling the last batch first. */
  method ChunkIDs(ids: seq<TrackID>, chunkSize: int) returns (chunks: seq<seq<TrackID>>)
    ensures chunks == Chunked(ids, chunkSize)
  {
    chunks := [[]];
    var i := 0;
    while i < |ids|
      invariant 0 <= i <= |ids|
      invariant chunks == Chunked(ids[..i], chunkSize)
    {
      var id := ids[i];
      var chunkIndex := |chunks| - 1;
      if |chunks[chunkIndex]| < chunkSize {
        chunks := chunks[chunkIndex := chunks[chunkIndex] + [id]];
      } else {
        chunks := chunks + [[id]];
      }
      ChunkedSnoc(ids[..i], id, chunkSize);
      assert ids[..i + 1] == ids[..i] + [id];
      i := i + 1;
    }
    assert ids[..|ids|] == ids;
  }

  // ---------------------------------------------------------------------
  // fullTrackGetMany

  const FailedManyTracks: string := "Failed to get many tracks: "

  /** Every batch in `calls` was answered successfully by `lookup`. */
  predicate AllSucceeded<Track>(calls: seq<seq<TrackID>>, lookup: seq<TrackID> -> Result<seq<Track>, string>) {
    forall k :: 0 <= k < |calls| ==> lookup(calls[k]).Success?
  }

  /** The tracks of successful lookups, batch after batch. */
  function Gathered<Track>(calls: seq<seq<TrackID>>, lookup: seq<TrackID> -> Result<seq<Track>, string>): seq<Track>
    requires AllSucceeded(calls, lookup)
  {
    if calls == [] then []
    else Gathered(calls[..|calls| - 1], lookup) + lookup(calls[|calls| - 1]).value
  }

  /**
   * fullTrackGetMany with the Spotify `GetTracks` call as `lookup`. Also
   * returns `calls`, the batches looked up, in order. No IDs: no lookup.
   * Otherwise one lookup per batch of `Chunked(ids, pageLimit)`, stopping
   * at the first failure, which is returned wrapped together with the
   * tracks gathered from the batches before it.
   */
  method FullTrackGetMany<Track>(ids: seq<TrackID>, pageLimit: int, lookup: seq<TrackID> -> Result<seq<Track>, string>)
    returns (tracks: seq<Track>, err: Option<string>, calls: seq<seq<TrackID>>)
    ensures ids == [] ==> tracks == [] && err == None && calls == []
    ensures ids != [] ==> 1 <= |calls| <= |Chunked(ids, pageLimit)| && calls == Chunked(ids, pageLimit)[..|calls|]
    ensures ids != [] && err.None? ==> calls == Chunked(ids, pageLimit)
    ensures err.None? ==> AllSucceeded(calls, lookup) && tracks == Gathered(calls, lookup)
    ensures err.Some? ==>
              && AllSucceeded(calls[..|calls| - 1], lookup)
              && lookup(calls[|calls| - 1]).Failure?
              && err == Some(FailedManyTracks + lookup(calls[|calls| - 1]).error)
              && tracks == Gathered(calls[..|calls| - 1], lookup)
  {
    tracks, err, calls := [], None, [];
    if |ids| == 0 {
      return;
    }
    var chunks := ChunkIDs(ids, pageLimit);
    var i := 0;
    while i < |chunks|
      invariant 0 <= i <= |chunks|
      invariant calls == chunks[..i]
      invariant AllSucceeded(calls, lookup)
      invariant tracks == Gathered(calls, lookup)
    {
      var chunk := chunks[i];
      var answer := lookup(chunk);
      calls := calls + [chunk];
      if answer.Failure? {
        err := Some(FailedManyTracks + answer.error);
        assert calls[..|calls| - 1] == chunks[..i];
        assert calls == chunks[..i + 1];
        return;
      }
      assert calls[..|calls| - 1] == chunks[..i];
      tracks := tracks + answer.value;
      i := i + 1;
    }
    assert chunks[..|chunks|] == chunks;
  }

  /**
   * When every lookup returns one track per ID, in the order asked, the
   * gathered tracks line up one to one with the IDs of the batches.
   */
  lemma {:induction false} GatheredPerID<Track>(calls: seq<seq<TrackID>>, lookup: seq<TrackID> -> Result<seq<Track>, string>, track: TrackID -> Track)
    requires forall k :: 0 <= k < |calls| ==> lookup(calls[k]) == Success(seq(|calls[k]|, j requires 0 <= j < |calls[k]| => track(calls[k][j])))
    decreases |calls|
    ensures AllSucceeded(calls, lookup)
    ensures var ids := Flatten(calls);
            var ts := Gathered(calls, lookup);
            |ts| == |ids| && forall j :: 0 <= j < |ids| ==> ts[j] == track(ids[j])
  {
    if calls != [] {
      var n := |calls| - 1;
      GatheredPerID(calls[..n], lookup, track);
    }
  }

  // ---------------------------------------------------------------------
  // appendIfUnique

  /** `s` with `i` appended at the end unless it is already there. */
  function Inserted(s: seq<TrackID>, i: TrackID): seq<TrackID> {
    if i in s then s else s + [i]
  }

  predicate NoDuplicates(s: seq<TrackID>) {
    forall j, k :: 0 <= j < k < |s| ==> s[j] != s[k]
  }

  /** appendIfUnique: scans for `i`, returning the slice unchanged if found, else with `i` appended. */
  method AppendIfUnique(slice: seq<TrackID>, i: TrackID) returns (r: seq<TrackID>)
    ensures r == Inserted(slice, i)
  {
    var k := 0;
    while k < |slice|
      invariant 0 <= k <= |slice|
      invariant i !in slice[..k]
    {
      if slice[k] == i {
        return slice;
      }
      assert slice[..k + 1] == slice[..k] + [slice[k]];
      k := k + 1;
    }
    assert slice[..|slice|] == slice;
    r := slice + [i];
  }

  /** Inserting keeps the old elements in place and adds `i`, nothing else. */
  lemma InsertedContents(s: seq<TrackID>, i: TrackID)
    ensures |s| <= |Inserted(s, i)| <= |s| + 1
    ensures Inserted(s, i)[..|s|] == s
    ensures (set x | x in Inserted(s, i)) == (set x | x in s) + {i}
  {
  }

  /** Inserting the same ID twice is inserting it once. */
  lemma InsertedIdempotent(s: seq<TrackID>, i: TrackID)
    ensures Inserted(Inserted(s, i), i) == Inserted(s, i)
  {
  }

  /** A list without duplicates stays without duplicates. */
  lemma InsertedNoDuplicates(s: seq<TrackID>, i: TrackID)
    requires NoDuplicates(s)
    ensures NoDuplicates(Inserted(s, i))
  {
  }

  /** The seed list built by inserting every ID in turn (helpers.go, handlers.go). */
  function Deduplicated(ids: seq<TrackID>): seq<TrackID> {
    if ids == [] then [] else Inserted(Deduplicated(ids[..|ids| - 1]), ids[|ids| - 1])
  }

  /** Folding the unique insert over a list keeps each ID once, and every ID. */
  lemma {:induction false} DeduplicatedProperties(ids: seq<TrackID>)
    decreases |ids|
    ensures NoDuplicates(Deduplicated(ids))
    ensures (set x | x in Deduplicated(ids)) == (set x | x in ids)
  {
    if ids != [] {
      var n := |ids| - 1;
      DeduplicatedProperties(ids[..n]);
      InsertedNoDuplicates(Deduplicated(ids[..n]), ids[n]);
      InsertedContents(Deduplicated(ids[..n]), ids[n]);
      assert ids == ids[..n] + [ids[n]];
      assert (set x | x in ids) == (set x | x in ids[..n]) + {ids[n]};
    }
  }

  // ---------------------------------------------------------------------
  // normalizeRecentlyPlayed

  const Second: int := 1_000_000_000
  const HiccupWindow: int := 30 * Second

  /** spotify.RecentlyPlayedItem: the played track's ID and when (ns since Go's zero time). */
  datatype PlayedItem = PlayedItem(trackID: TrackID, playedAt: int)

  /** `t.Truncate(30 * time.Second)`: rounded down to a multiple of 30 s. */
  function Truncate30(t: int): int {
    t - t % HiccupWindow
  }

  /** `cur` repeats `prev`: same track, and both started in the same 30-second slot. */
  predicate Hiccup(prev: PlayedItem, cur: PlayedItem) {
    Truncate30(prev.playedAt) == Truncate30(cur.playedAt) && prev.trackID == cur.trackID
  }

  /** Item `j` survives: it is the first, or it does not repeat the item just before it. */
  predicate Kept(s: seq<PlayedItem>, j: nat)
    requires j < |s|
  {
    j == 0 || !Hiccup(s[j - 1], s[j])
  }

  /** The surviving items of `s`, in their original order. */
  function Normalized(s: seq<PlayedItem>): (r: seq<PlayedItem>)
    ensures |r| <= |s|
    ensures |s| > 0 ==> |r| > 0 && r[0] == s[0]
  {
    if s == [] then []
    else Normalized(s[..|s| - 1]) + (if Kept(s, |s| - 1) then [s[|s| - 1]] else [])
  }

  /** The positions of the surviving items, in increasing order. */
  function KeptIndices(s: seq<PlayedItem>): seq<nat> {
    if s == [] then []
    else KeptIndices(s[..|s| - 1]) + (if Kept(s, |s| - 1) then [|s| - 1] else [])
  }

  /** The survivors are exactly the input items at the kept positions, in that order. */
  lemma {:induction false} NormalizedPicks(s: seq<PlayedItem>)
    decreases |s|
    ensures |KeptIndices(s)| == |Normalized(s)|
    ensures forall k :: 0 <= k < |KeptIndices(s)| ==>
      KeptIndices(s)[k] < |s| && Normalized(s)[k] == s[KeptIndices(s)[k]]
  {
    if s != [] {
      var p := s[..|s| - 1];
      NormalizedPicks(p);
      var ki, n := KeptIndices(s), Normalized(s);
      forall k | 0 <= k < |ki| ensures ki[k] < |s| && n[k] == s[ki[k]] {
        if k < |KeptIndices(p)| {
          assert ki[k] == KeptIndices(p)[k];
          assert n[k] == Normalized(p)[k];
          assert p[ki[k]] == s[ki[k]];
        }
      }
    }
  }

  /** The kept positions increase strictly: the survivors keep their input order. */
  lemma {:induction false} KeptIndicesIncrease(s: seq<PlayedItem>)
    decreases |s|
    ensures forall k :: 0 <= k < |KeptIndices(s)| ==> KeptIndices(s)[k] < |s|
    ensures forall k, l :: 0 <= k < l < |KeptIndices(s)| ==> KeptIndices(s)[k] < KeptIndices(s)[l]
  {
    if s != [] {
      KeptIndicesIncrease(s[..|s| - 1]);
    }
  }

  /** A position is kept exactly when its item is the first or does not repeat the one before it. */
  lemma {:induction false} KeptIndicesExact(s: seq<PlayedItem>)
    decreases |s|
    ensures forall j :: 0 <= j < |s| ==> (j in KeptIndices(s) <==> Kept(s, j))
  {
    if s != [] {
      var p := s[..|s| - 1];
      KeptIndicesExact(p);
      KeptIndicesIncrease(p);
      forall j | 0 <= j < |s| ensures j in KeptIndices(s) <==> Kept(s, j) {
        if j < |p| {
          assert Kept(p, j) == Kept(s, j);
          assert |s| - 1 !in KeptIndices(p);
        }
      }
    }
  }

  /**
   * normalizeRecentlyPlayed: keeps the first item and every later item
   * that does not repeat the one before it in the input.
   */
  method NormalizeRecentlyPlayed(incoming: seq<PlayedItem>) returns (outgoing: seq<PlayedItem>)
    requires |incoming| > 0
    ensures outgoing == Normalized(incoming)
  {
    outgoing := [incoming[0]];
    assert incoming[..1][..0] == [];
    var i := 1;
    while i < |incoming|
      invariant 1 <= i <= |incoming|
      invariant outgoing == Normalized(incoming[..i])
    {
      assert incoming[..i + 1][..i] == incoming[..i];
      var t1, i1 := incoming[i - 1].playedAt, incoming[i - 1].trackID;
      var t2, i2 := incoming[i].playedAt, incoming[i].trackID;
      if Truncate30(t1) == Truncate30(t2) && i1 == i2 {
        i := i + 1;
        continue;
      }
      outgoing := outgoing + [incoming[i]];
      i := i + 1;
    }
    assert incoming[..|incoming|] == incoming;
  }

  /** No item of `s` repeats its neighbour before it. */
  predicate NoHiccups(s: seq<PlayedItem>) {
    forall k :: 0 < k < |s| ==> !Hiccup(s[k - 1], s[k])
  }

  /**
   * The same filter stated against the last item KEPT rather than the
   * previous input item: drop an item iff it repeats the last survivor.
   */
  function Collapsed(s: seq<PlayedItem>): (r: seq<PlayedItem>)
    ensures s != [] ==> r != []
  {
    if |s| <= 1 then s
    else
      var c := Collapsed(s[..|s| - 1]);
      if Hiccup(c[|c| - 1], s[|s| - 1]) then c else c + [s[|s| - 1]]
  }

  /**
   * Comparing with the previous input item and comparing with the last kept
   * item give the same list: a dropped item is identical (track and slot)
   * to its predecessor, so the last survivor always matches the previous item.
   */
  lemma {:induction false} NormalizedIsCollapsed(s: seq<PlayedItem>)
    requires s != []
    decreases |s|
    ensures Normalized(s) == Collapsed(s)
    ensures var c := Collapsed(s); Hiccup(c[|c| - 1], s[|s| - 1])
  {
    if |s| == 1 {
      assert s[..0] == [];
    } else {
      var p := s[..|s| - 1];
      NormalizedIsCollapsed(p);
      CollapsedStep(s, p, Collapsed(p));
    }
  }

  /** One step of NormalizedIsCollapsed, with the induction hypothesis as premises. */
  lemma CollapsedStep(s: seq<PlayedItem>, p: seq<PlayedItem>, c: seq<PlayedItem>)
    requires |s| >= 2 && p == s[..|s| - 1] && c == Collapsed(p) && c != []
    requires Normalized(p) == c
    requires Hiccup(c[|c| - 1], s[|s| - 2])
    ensures Normalized(s) == Collapsed(s)
    ensures var d := Collapsed(s); Hiccup(d[|d| - 1], s[|s| - 1])
  {
    if Hiccup(s[|s| - 2], s[|s| - 1]) {
      assert Hiccup(c[|c| - 1], s[|s| - 1]);
      assert Collapsed(s) == c;
      assert Normalized(s) == c;
    } else {
      assert !Hiccup(c[|c| - 1], s[|s| - 1]);
      assert Collapsed(s) == c + [s[|s| - 1]];
      assert Normalized(s) == c + [s[|s| - 1]];
    }
  }

  /** The collapsed list has no hiccups left. */
  lemma {:induction false} CollapsedNoHiccups(s: seq<PlayedItem>)
    decreases |s|
    ensures NoHiccups(Collapsed(s))
  {
    if |s| > 1 {
      CollapsedNoHiccups(s[..|s| - 1]);
    }
  }

  /** A list without hiccups passes through the filter whole. */
  lemma {:induction false} NormalizedWithoutHiccups(s: seq<PlayedItem>)
    requires NoHiccups(s)
    decreases |s|
    ensures Normalized(s) == s
  {
    if s != [] {
      var p := s[..|s| - 1];
      assert NoHiccups(p);
      NormalizedWithoutHiccups(p);
      assert s == p + [s[|s| - 1]];
    }
  }

  /** Normalizing the history leaves no hiccups, so normalizing again changes nothing. */
  lemma NormalizeIdempotent(s: seq<PlayedItem>)
    requires |s| > 0
    ensures NoHiccups(Normalized(s))
    ensures Normalized(Normalized(s)) == Normalized(s)
  {
    NormalizedIsCollapsed(s);
    CollapsedNoHiccups(s);
    NormalizedWithoutHiccups(Normalized(s));
  }

  // ---------------------------------------------------------------------
  // joinArtists

  /** spotify.SimpleArtist, reduced to the field the helper reads. */
  datatype SimpleArtist = SimpleArtist(name: string)

  /** The artists' names, in order. */
  function Names(artists: seq<SimpleArtist>): seq<string> {
    seq(|artists|, k requires 0 <= k < |artists| => artists[k].name)
  }

  /**
   * joinArtists: collects the names in a loop, then joins them with
   * `separator` as strings.Join does.
   */
  method JoinArtists(artists: seq<SimpleArtist>, separator: string) returns (joined: string)
    ensures artists == [] ==> joined == ""
    ensures joined == GoStrings.Join(Names(artists), separator)
  {
    var output: seq<string> := [];
    var k := 0;
    while k < |artists|
      invariant 0 <= k <= |artists|
      invariant |output| == k
      invariant forall j :: 0 <= j < k ==> output[j] == artists[j].name
    {
      output := output + [artists[k].name];
      k := k + 1;
    }
    assert output == Names(artists);
    joined := GoStrings.Join(output, separator);
  }

  /**
   * The joined string can be split back into the names, provided no name
   * contains the separator's first character and that character does not
   * recur inside the separator (", " with names free of commas, say).
   */
  lemma ArtistsSplitBack(artists: seq<SimpleArtist>, separator: string)
    requires |artists| >= 1 && |separator| > 0
    requires separator[0] !in separator[1..]
    requires forall k :: 0 <= k < |artists| ==> separator[0] !in artists[k].name
    ensures GoStrings.Split(GoStrings.Join(Names(artists), separator), separator) == Names(artists)
  {
    GoStrings.SplitJoin(Names(artists), separator);
  }

  // ---------------------------------------------------------------------
  // searchType

  /** spotify.SearchType, one constant per kind of search result. */
  datatype SearchType = Album | Artist | Playlist | Track

  /** searchType: the keyword's search type; anything unrecognised searches tracks. */
  function SearchTypeOf(a: string): (t: SearchType)
    ensures t == Album <==> a == "album"
    ensures t == Artist <==> a == "artist"
    ensures t == Playlist <==> a == "playlist"
    ensures t == Track <==> a != "album" && a != "artist" && a != "playlist"
  {
    match a
    case "track" => Track
    case "playlist" => Playlist
    case "album" => Album
    case "artist" => Artist
    case _ => Track
  }

  /** The keyword that selects each search type. */
  function Keyword(t: SearchType): string {
    match t
    case Album => "album"
    case Artist => "artist"
    case Playlist => "playlist"
    case Track => "track"
  }

  /**
   * Every search type is reachable through its keyword, and a keyword maps
   * back to itself exactly when it is one of the four the switch names.
   */
  lemma SearchTypeKeyword(t: SearchType, a: string)
    ensures SearchTypeOf(Keyword(t)) == t
    ensures Keyword(SearchTypeOf(a)) == a <==> a in {"album", "artist", "playlist", "track"}
  {
  }
}
