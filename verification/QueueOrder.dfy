/**
 Putting the first episodes and then the best seeded movies at the front of
 the download queue, with no command but "move this torrent to the front".
 */
module QueueOrder {

  type InfoHash = nat

  /** A movie as the snapshot shows it; its priority is its place in the queue. */
  datatype Candidate = Candidate(priority: nat, index: nat, score: int, hash: InfoHash)

  // ---- Sequences of distinct torrents ----

  predicate Distinct(s: seq<InfoHash>) {
    forall i, j :: 0 <= i < j < |s| ==> s[i] != s[j]
  }

  function Members(s: seq<InfoHash>): set<InfoHash> {
    set h | h in s
  }

  /** The queue as seen by whoever only looks at these torrents. */
  function Restrict(queue: seq<InfoHash>, chosen: set<InfoHash>): seq<InfoHash> {
    if queue == [] then []
    else if queue[0] in chosen then [queue[0]] + Restrict(queue[1..], chosen)
    else Restrict(queue[1..], chosen)
  }

  function Without(queue: seq<InfoHash>, gone: set<InfoHash>): seq<InfoHash> {
    Restrict(queue, Members(queue) - gone)
  }

  lemma {:induction false} RestrictMembers(queue: seq<InfoHash>, chosen: set<InfoHash>)
    requires Distinct(queue)
    ensures Distinct(Restrict(queue, chosen))
    ensures forall h :: h in Restrict(queue, chosen) <==> h in queue && h in chosen
  {
    if queue != [] {
      RestrictMembers(queue[1..], chosen);
      assert forall i | 1 <= i < |queue| :: queue[i] == queue[1..][i - 1];
      assert queue[0] !in queue[1..];
      assert forall h :: h in queue <==> h == queue[0] || h in queue[1..];
    }
  }

  lemma {:induction false} RestrictSame(queue: seq<InfoHash>, a: set<InfoHash>, b: set<InfoHash>)
    requires forall h | h in queue :: h in a <==> h in b
    ensures Restrict(queue, a) == Restrict(queue, b)
  {
    if queue != [] {
      assert queue[0] in queue && forall h | h in queue[1..] :: h in queue;
      RestrictSame(queue[1..], a, b);
    }
  }

  lemma {:induction false} RestrictAll(queue: seq<InfoHash>, chosen: set<InfoHash>)
    requires forall h | h in queue :: h in chosen
    ensures Restrict(queue, chosen) == queue
  {
    if queue != [] {
      assert queue[0] in queue && forall h | h in queue[1..] :: h in queue;
      RestrictAll(queue[1..], chosen);
    }
  }

  lemma {:induction false} RestrictNone(queue: seq<InfoHash>, chosen: set<InfoHash>)
    requires forall h | h in queue :: h !in chosen
    ensures Restrict(queue, chosen) == []
  {
    if queue != [] {
      assert queue[0] in queue && forall h | h in queue[1..] :: h in queue;
      RestrictNone(queue[1..], chosen);
    }
  }

  lemma {:induction false} RestrictJoined(a: seq<InfoHash>, b: seq<InfoHash>, chosen: set<InfoHash>)
    ensures Restrict(a + b, chosen) == Restrict(a, chosen) + Restrict(b, chosen)
  {
    if a == [] {
      assert a + b == b;
    } else {
      assert (a + b)[1..] == a[1..] + b;
      RestrictJoined(a[1..], b, chosen);
    }
  }

  lemma {:induction false} RestrictTwice(queue: seq<InfoHash>, a: set<InfoHash>, b: set<InfoHash>)
    ensures Restrict(Restrict(queue, a), b) == Restrict(queue, a * b)
  {
    if queue != [] {
      RestrictTwice(queue[1..], a, b);
      if queue[0] in a { assert ([queue[0]] + Restrict(queue[1..], a))[1..] == Restrict(queue[1..], a); }
    }
  }

  // ---- Moving to the front ----

  function ToFront(queue: seq<InfoHash>, h: InfoHash): seq<InfoHash> {
    if h in queue then [h] + Without(queue, {h}) else queue
  }

  /** The whole pass: the last one first. */
  function Promoted(queue: seq<InfoHash>, hashes: seq<InfoHash>): seq<InfoHash> {
    if hashes == [] then queue else ToFront(Promoted(queue, hashes[1..]), hashes[0])
  }

  lemma WithoutTwice(queue: seq<InfoHash>, a: set<InfoHash>, b: set<InfoHash>)
    requires Distinct(queue)
    ensures Without(Without(queue, a), b) == Without(queue, a + b)
  {
    RestrictMembers(queue, Members(queue) - a);
    RestrictTwice(queue, Members(queue) - a, Members(Without(queue, a)) - b);
    RestrictSame(queue, (Members(queue) - a) * (Members(Without(queue, a)) - b), Members(queue) - (a + b));
  }

  lemma WithoutJoined(a: seq<InfoHash>, b: seq<InfoHash>, gone: set<InfoHash>)
    ensures Without(a + b, gone) == Without(a, gone) + Without(b, gone)
  {
    var chosen := Members(a + b) - gone;
    RestrictJoined(a, b, chosen);
    RestrictSame(a, chosen, Members(a) - gone);
    RestrictSame(b, chosen, Members(b) - gone);
  }

  lemma FrontStaysDistinct(queue: seq<InfoHash>, hashes: seq<InfoHash>)
    requires Distinct(queue) && Distinct(hashes) && forall h | h in hashes :: h in queue
    ensures var after := hashes + Without(queue, Members(hashes));
      Distinct(after) && forall h :: h in after <==> h in queue
  {
    RestrictMembers(queue, Members(queue) - Members(hashes));
    var rest := Without(queue, Members(hashes));
    forall i, j | 0 <= i < |hashes| && 0 <= j < |rest| ensures hashes[i] != rest[j] {
      assert hashes[i] in hashes && rest[j] in rest;
    }
  }

  /** A pass puts its torrents at the front in their order and leaves the others as they stood. */
  lemma {:induction false} PassPutsInFront(queue: seq<InfoHash>, hashes: seq<InfoHash>)
    requires Distinct(queue) && Distinct(hashes) && forall h | h in hashes :: h in queue
    ensures Promoted(queue, hashes) == hashes + Without(queue, Members(hashes))
    ensures Distinct(Promoted(queue, hashes)) && forall h :: h in Promoted(queue, hashes) <==> h in queue
  {
    if hashes == [] {
      RestrictAll(queue, Members(queue) - Members(hashes));
    } else {
      var h, rest := hashes[0], hashes[1..];
      assert h in hashes && h !in rest && forall k | k in rest :: k in hashes;
      PassPutsInFront(queue, rest);
      assert Members(rest) + {h} == Members(hashes) by {
        assert forall k | k in hashes :: k == h || k in rest;
      }
      OneMoreInFront(queue, rest, h);
      assert hashes == [h] + rest;
    }
    hide Promoted;
    FrontStaysDistinct(queue, hashes);
  }

  lemma OneMoreInFront(queue: seq<InfoHash>, rest: seq<InfoHash>, h: InfoHash)
    requires Distinct(queue) && h in queue && h !in rest
    ensures [h] + Without(rest + Without(queue, Members(rest)), {h}) == [h] + rest + Without(queue, Members(rest) + {h})
  {
    var before := Without(queue, Members(rest));
    WithoutJoined(rest, before, {h});
    RestrictAll(rest, Members(rest) - {h});
    WithoutTwice(queue, Members(rest), {h});
    hide Without;
    assert [h] + (rest + Without(queue, Members(rest) + {h})) == [h] + rest + Without(queue, Members(rest) + {h});
  }

  lemma {:induction false} OthersStay(queue: seq<InfoHash>, hashes: seq<InfoHash>, others: set<InfoHash>)
    requires Distinct(queue) && Distinct(hashes) && forall h | h in hashes :: h in queue && h !in others
    ensures Restrict(Promoted(queue, hashes), others) == Restrict(queue, others)
  {
    PassPutsInFront(queue, hashes);
    RestrictJoined(hashes, Without(queue, Members(hashes)), others);
    RestrictNone(hashes, others);
    RestrictTwice(queue, Members(queue) - Members(hashes), others);
    RestrictSame(queue, (Members(queue) - Members(hashes)) * others, others);
  }

  // ---- The wanted order ----

  predicate Ahead(a: Candidate, b: Candidate) {
    a.score > b.score ||
    (a.score == b.score && (a.priority < b.priority || (a.priority == b.priority && a.index <= b.index)))
  }

  function InsertByRank(sorted: seq<Candidate>, c: Candidate): seq<Candidate> {
    if sorted == [] || Ahead(c, sorted[0]) then [c] + sorted else [sorted[0]] + InsertByRank(sorted[1..], c)
  }

  /** `sorted` with the best seeded movie first, and the queue's own order among equals. */
  function Ranked(movies: seq<Candidate>): seq<Candidate> {
    if movies == [] then [] else InsertByRank(Ranked(movies[1..]), movies[0])
  }

  function Hashes(movies: seq<Candidate>): seq<InfoHash> {
    seq(|movies|, i requires 0 <= i < |movies| => movies[i].hash)
  }

  predicate InRankOrder(movies: seq<Candidate>) {
    forall i, j :: 0 <= i < j < |movies| ==> Ahead(movies[i], movies[j])
  }

  lemma {:induction false} InsertMembers(sorted: seq<Candidate>, c: Candidate)
    ensures |InsertByRank(sorted, c)| == |sorted| + 1
    ensures forall x :: x in InsertByRank(sorted, c) <==> x in sorted || x == c
  {
    if sorted != [] && !Ahead(c, sorted[0]) {
      InsertMembers(sorted[1..], c);
      assert forall x :: x in sorted <==> x == sorted[0] || x in sorted[1..];
    }
  }

  lemma {:induction false} InsertKeepsRank(sorted: seq<Candidate>, c: Candidate)
    requires InRankOrder(sorted)
    ensures InRankOrder(InsertByRank(sorted, c))
  {
    if sorted != [] && !Ahead(c, sorted[0]) {
      var first, rest := sorted[0], InsertByRank(sorted[1..], c);
      InsertKeepsRank(sorted[1..], c);
      InsertMembers(sorted[1..], c);
      assert forall k | 0 <= k < |sorted| - 1 :: sorted[1..][k] == sorted[k + 1];
      forall j | 0 <= j < |rest| ensures Ahead(first, rest[j]) {
        assert rest[j] in rest;
      }
      hide Ahead;
      assert forall j | 0 < j < |[first] + rest| :: ([first] + rest)[j] == rest[j - 1];
    }
  }

  predicate DistinctMovies(movies: seq<Candidate>) {
    forall i, j :: 0 <= i < j < |movies| ==> movies[i].hash != movies[j].hash
  }

  lemma {:induction false} InsertStaysDistinct(sorted: seq<Candidate>, c: Candidate)
    requires DistinctMovies(sorted) && forall x | x in sorted :: x.hash != c.hash
    ensures DistinctMovies(InsertByRank(sorted, c))
  {
    if sorted != [] && !Ahead(c, sorted[0]) {
      InsertStaysDistinct(sorted[1..], c);
      InsertMembers(sorted[1..], c);
      var first, rest := sorted[0], InsertByRank(sorted[1..], c);
      forall j | 0 <= j < |rest| ensures rest[j].hash != first.hash {
        assert rest[j] in rest;
      }
    }
  }

  /** Ranking sorts, and keeps every movie once. */
  lemma {:induction false} RankedIsSorted(movies: seq<Candidate>)
    requires DistinctMovies(movies)
    ensures InRankOrder(Ranked(movies)) && |Ranked(movies)| == |movies|
    ensures forall c :: c in Ranked(movies) <==> c in movies
    ensures DistinctMovies(Ranked(movies))
  {
    if movies != [] {
      var c, tail := movies[0], movies[1..];
      RankedIsSorted(tail);
      InsertMembers(Ranked(tail), c);
      InsertKeepsRank(Ranked(tail), c);
      InsertStaysDistinct(Ranked(tail), c);
      assert forall x :: x in movies <==> x == c || x in tail;
    }
  }

  /** More seeders come first, and among equals whoever stood further ahead in the queue, then in its listing. */
  lemma BestSeededFirst(movies: seq<Candidate>, i: nat, j: nat)
    requires DistinctMovies(movies) && i < |Ranked(movies)| && j < |Ranked(movies)|
    ensures var a, b := Ranked(movies)[i], Ranked(movies)[j];
      && (a.score > b.score ==> i < j)
      && (a.score == b.score && a.priority < b.priority ==> i < j)
      && (a.score == b.score && a.priority == b.priority && a.index < b.index ==> i < j)
  {
    hide Ranked;
    RankedIsSorted(movies);
    if j < i { assert Ahead(Ranked(movies)[j], Ranked(movies)[i]); }
  }

  lemma DistinctByHash(movies: seq<Candidate>)
    ensures Distinct(Hashes(movies)) <==> DistinctMovies(movies)
  {
    assert forall i | 0 <= i < |movies| :: Hashes(movies)[i] == movies[i].hash;
  }

  lemma SameHashes(a: seq<Candidate>, b: seq<Candidate>)
    requires forall c :: c in a <==> c in b
    ensures forall h :: h in Hashes(a) <==> h in Hashes(b)
  {
    forall h ensures h in Hashes(a) <==> h in Hashes(b) {
      if h in Hashes(a) {
        var i :| 0 <= i < |a| && Hashes(a)[i] == h;
        assert a[i] in b;
        var j :| 0 <= j < |b| && b[j] == a[i];
        assert Hashes(b)[j] == h;
      }
      if h in Hashes(b) {
        var i :| 0 <= i < |b| && Hashes(b)[i] == h;
        assert b[i] in a;
        var j :| 0 <= j < |a| && a[j] == b[i];
        assert Hashes(a)[j] == h;
      }
    }
  }

  // ---- The queue and the handler ----

  /** qBittorrent's queue. */
  class TorrentQueue {
    var order: seq<InfoHash>

    constructor (order: seq<InfoHash>)
      ensures this.order == order
    {
      this.order := order;
    }

    method TopPriority(h: InfoHash)
      modifies this
      ensures order == ToFront(old(order), h)
    {
      if h in order {
        order := [h] + Without(order, {h});
      }
    }

    /** One reversed pass over the wanted order. */
    method TopAll(hashes: seq<InfoHash>)
      modifies this
      ensures order == Promoted(old(order), hashes)
    {
      var i := |hashes|;
      while i > 0
        invariant 0 <= i <= |hashes| && order == Promoted(old(order), hashes[i..])
      {
        i := i - 1;
        assert hashes[i..][0] == hashes[i] && hashes[i..][1..] == hashes[i + 1..];
        TopPriority(hashes[i]);
      }
      assert hashes[0..] == hashes;
    }

    /**
     The two passes; the movies' one is skipped when they already stand in the wanted order.
     `movies` and `episodes` are in queue order, as the snapshot's priorities say.
     */
    method Prioritize(movies: seq<Candidate>, episodes: seq<InfoHash>) returns (changed: bool)
      requires Distinct(order) && Distinct(Hashes(movies) + episodes)
      requires forall h | h in Hashes(movies) || h in episodes :: h in order
      requires Hashes(movies) == Restrict(order, Members(Hashes(movies)))
      requires episodes == Restrict(order, Members(episodes))
      modifies this
      ensures var chosen := Members(Hashes(movies) + episodes);
        && Restrict(order, chosen) == episodes + Hashes(Ranked(movies))
        && (forall others | others !! chosen :: Restrict(order, others) == Restrict(old(order), others))
        && (!changed <==> Restrict(old(order), chosen) == episodes + Hashes(Ranked(movies)))
        && (!changed ==> order == old(order))
    {
      var current, desired := Hashes(movies), Hashes(Ranked(movies));
      ghost var chosen := Members(current + episodes);
      SplitDistinct(current, episodes);
      DistinctByHash(movies);
      RankedIsSorted(movies);
      DistinctByHash(Ranked(movies));
      SameHashes(Ranked(movies), movies);
      var chosenNow := Restrict(order, set h | h in current + episodes);
      assert chosenNow == Restrict(order, chosen);
      if chosenNow == episodes + desired {
        return false;
      }
      ghost var before := order;
      if current != desired {
        TopAll(desired);
        PassPutsInFront(before, desired);
      }
      ghost var middle := order;
      MoviesInOrder(before, middle, current, desired);
      TopAll(episodes);
      PassPutsInFront(middle, episodes);
      ChosenInOrder(middle, episodes, desired, chosen);
      forall others | others !! chosen ensures Restrict(order, others) == Restrict(before, others) {
        OthersApart(current, desired, episodes, chosen, others);
        OthersStay(middle, episodes, others);
        if current != desired { OthersStay(before, desired, others); }
      }
      changed := true;
    }
  }

  lemma SplitDistinct(a: seq<InfoHash>, b: seq<InfoHash>)
    requires Distinct(a + b)
    ensures Distinct(a) && Distinct(b) && forall h | h in a :: h !in b
  {
    forall i, j | 0 <= i < j < |a| ensures a[i] != a[j] { assert (a + b)[i] == a[i] && (a + b)[j] == a[j]; }
    forall i, j | 0 <= i < j < |b| ensures b[i] != b[j] {
      assert (a + b)[|a| + i] == b[i] && (a + b)[|a| + j] == b[j];
    }
    forall i, j | 0 <= i < |a| && 0 <= j < |b| ensures a[i] != b[j] {
      assert (a + b)[i] == a[i] && (a + b)[|a| + j] == b[j];
    }
  }

  /** After the movies' pass, or without it, the movies stand in the wanted order. */
  lemma MoviesInOrder(before: seq<InfoHash>, middle: seq<InfoHash>, current: seq<InfoHash>, desired: seq<InfoHash>)
    requires Distinct(before) && Distinct(desired) && forall h :: h in current <==> h in desired
    requires forall h | h in desired :: h in before
    requires current == Restrict(before, Members(current))
    requires middle == if current != desired then Promoted(before, desired) else before
    ensures Restrict(middle, Members(desired)) == desired
  {
    assert Members(current) == Members(desired);
    if current != desired {
      PassPutsInFront(before, desired);
      var rest := Without(before, Members(desired));
      RestrictMembers(before, Members(before) - Members(desired));
      RestrictJoined(desired, rest, Members(desired));
      RestrictAll(desired, Members(desired));
      RestrictNone(rest, Members(desired));
      assert desired + [] == desired;
    }
  }

  lemma ChosenInOrder(middle: seq<InfoHash>, episodes: seq<InfoHash>, desired: seq<InfoHash>, chosen: set<InfoHash>)
    requires Distinct(middle) && Distinct(episodes) && forall h | h in episodes :: h in middle && h !in desired
    requires Restrict(middle, Members(desired)) == desired
    requires forall h :: h in chosen <==> h in episodes || h in desired
    ensures Restrict(Promoted(middle, episodes), chosen) == episodes + desired
  {
    PassPutsInFront(middle, episodes);
    var rest := Without(middle, Members(episodes));
    RestrictJoined(episodes, rest, chosen);
    RestrictAll(episodes, chosen);
    RestrictTwice(middle, Members(middle) - Members(episodes), chosen);
    RestrictSame(middle, (Members(middle) - Members(episodes)) * chosen, Members(desired));
  }

  lemma OthersApart(current: seq<InfoHash>, desired: seq<InfoHash>, episodes: seq<InfoHash>, chosen: set<InfoHash>,
                    others: set<InfoHash>)
    requires chosen == Members(current + episodes) && others !! chosen
    requires forall h :: h in current <==> h in desired
    ensures forall h | h in desired || h in episodes :: h !in others
  {
    forall h | h in desired || h in episodes ensures h in chosen {
      assert h in current + episodes;
    }
  }
}
