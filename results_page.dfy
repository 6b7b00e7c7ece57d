/** The results page: keep the entries that have a poster, order them by
    rating, highest first, keeping the original order among equal ratings,
    and decide what the page shows. Every function here reads its input
    list and builds a new one; the list the page received is never changed. */
module ResultsView {
  import opened Wrappers
  import opened Wire
  import opened Seqs

  // ---------------------------------------------------------------------
  // results.filter((result) => result.poster)
  // ---------------------------------------------------------------------

  predicate HasPoster(t: TitleSummary)
  {
    Truthy(t.poster)
  }

  /** `filteredResults`. */
  function WithPosters(results: seq<TitleSummary>): (kept: seq<TitleSummary>)
    ensures |kept| <= |results|
    ensures forall i :: 0 <= i < |kept| ==> kept[i] in results && HasPoster(kept[i])
    ensures forall i :: 0 <= i < |results| && HasPoster(results[i]) ==> results[i] in kept
  {
    FilterMembers(HasPoster, results);
    Filter(HasPoster, results)
  }

  /** The filtered list holds exactly the entries with a truthy poster, each
      as often as in the input, in their original relative order. */
  lemma WithPostersExact(results: seq<TitleSummary>)
    ensures forall t :: t in WithPosters(results) <==> t in results && HasPoster(t)
    ensures forall t :: multiset(WithPosters(results))[t] == if HasPoster(t) then multiset(results)[t] else 0
    ensures IsSubsequence(WithPosters(results), results)
  {
    FilterMembers(HasPoster, results);
    FilterCount(HasPoster, results);
    FilterIsSubsequence(HasPoster, results);
  }

  /** Those facts pin the filtered list down: any subsequence of the input
      that keeps every entry with a poster as often as the input has it, and
      no other entry, is the filtered list. */
  lemma WithPostersUnique(results: seq<TitleSummary>, cards: seq<TitleSummary>)
    requires IsSubsequence(cards, results)
    requires forall t :: multiset(cards)[t] == if HasPoster(t) then multiset(results)[t] else 0
    ensures cards == WithPosters(results)
  {
    FilterUnique(HasPoster, results, cards);
  }

  /** A title listed twice with a poster is shown twice. */
  lemma RepeatedPosterKept(t: TitleSummary)
    requires HasPoster(t)
    ensures WithPosters([t, t]) == [t, t]
  {
    assert [t, t][1..] == [t] && [t][1..] == [];
    assert Filter(HasPoster, [t]) == [t];
  }

  /** Filtering an already filtered list changes nothing. */
  lemma WithPostersIdempotent(results: seq<TitleSummary>)
    ensures WithPosters(WithPosters(results)) == WithPosters(results)
  {
    FilterIdempotent(HasPoster, results);
  }

  // ---------------------------------------------------------------------
  // [...filteredResults].sort((a, b) => (b.rating || 0) - (a.rating || 0))
  // ---------------------------------------------------------------------

  /** The sort key `rating || 0`: a missing or null rating counts as 0. */
  function Rating(t: TitleSummary): (key: real)
    ensures t.rating.Some? ==> key == t.rating.value
    ensures t.rating.None? ==> key == 0.0
  {
    if t.rating.Some? then t.rating.value else 0.0
  }

  /** Every entry's rating is at least that of every later entry. */
  ghost predicate Descending(s: seq<TitleSummary>)
  {
    forall i, j :: 0 <= i < j < |s| ==> Rating(s[i]) >= Rating(s[j])
  }

  /** The entries of `s` whose rating is `k`, in their order in `s`. A sort
      is stable exactly when it leaves each of these lists unchanged. */
  function RatedAt(s: seq<TitleSummary>, k: real): seq<TitleSummary>
  {
    if s == [] then [] else (if Rating(s[0]) == k then [s[0]] else []) + RatedAt(s[1..], k)
  }

  /** Places `x` before the first entry rated no higher than `x`. */
  function Insert(x: TitleSummary, s: seq<TitleSummary>): (r: seq<TitleSummary>)
    ensures |r| == |s| + 1
  {
    if s == [] then [x]
    else if Rating(s[0]) <= Rating(x) then [x] + s
    else [s[0]] + Insert(x, s[1..])
  }

  /** Inserting adds exactly `x`. */
  lemma {:induction false} InsertPermutes(x: TitleSummary, s: seq<TitleSummary>)
    ensures multiset(Insert(x, s)) == multiset(s) + multiset{x}
  {
    if s != [] && Rating(s[0]) > Rating(x) {
      InsertPermutes(x, s[1..]);
      assert s == [s[0]] + s[1..];
    }
  }

  lemma {:induction false} InsertMembers(x: TitleSummary, s: seq<TitleSummary>)
    ensures forall y :: y in Insert(x, s) <==> y == x || y in s
  {
    if s != [] && Rating(s[0]) > Rating(x) {
      InsertMembers(x, s[1..]);
      assert s == [s[0]] + s[1..];
    }
  }

  lemma {:induction false} InsertDescending(x: TitleSummary, s: seq<TitleSummary>)
    requires Descending(s)
    ensures Descending(Insert(x, s))
  {
    if s == [] {
    } else if Rating(s[0]) <= Rating(x) {
      var r := [x] + s;
      forall i, j | 0 <= i < j < |r|
        ensures Rating(r[i]) >= Rating(r[j])
      {
        if i == 0 && j > 1 {
          assert Rating(s[0]) >= Rating(s[j - 1]);
        }
      }
    } else {
      var rest := Insert(x, s[1..]);
      InsertDescending(x, s[1..]);
      InsertMembers(x, s[1..]);
      var r := [s[0]] + rest;
      forall i, j | 0 <= i < j < |r|
        ensures Rating(r[i]) >= Rating(r[j])
      {
        if i == 0 {
          var y := rest[j - 1];
          assert y in rest;
          if y != x {
            var m :| 0 <= m < |s[1..]| && s[1..][m] == y;
            assert Rating(s[0]) >= Rating(s[m + 1]);
          }
        } else {
          assert r[i] == rest[i - 1] && r[j] == rest[j - 1];
        }
      }
    }
  }

  /** `sortedResults`: a stable sort by rating, highest first (insertion
      sort; `InsertRatedAt` is what makes it stable). */
  function SortByRating(s: seq<TitleSummary>): (r: seq<TitleSummary>)
    ensures multiset(r) == multiset(s)
    ensures Descending(r)
  {
    if s == [] then []
    else
      assert s == [s[0]] + s[1..];
      InsertDescending(s[0], SortByRating(s[1..]));
      InsertPermutes(s[0], SortByRating(s[1..]));
      Insert(s[0], SortByRating(s[1..]))
  }

  /** Selecting by rating from a list with a known head. */
  lemma RatedAtCons(y: TitleSummary, rest: seq<TitleSummary>, k: real)
    ensures RatedAt([y] + rest, k) == (if Rating(y) == k then [y] else []) + RatedAt(rest, k)
  {
    assert ([y] + rest)[0] == y && ([y] + rest)[1..] == rest;
  }

  /** `x` inserted in front of `s`. */
  lemma InsertRatedAtFront(x: TitleSummary, s: seq<TitleSummary>, k: real)
    requires s == [] || Rating(s[0]) <= Rating(x)
    ensures RatedAt(Insert(x, s), k) == (if Rating(x) == k then [x] else []) + RatedAt(s, k)
  {
    assert Insert(x, s) == [x] + s;
    RatedAtCons(x, s, k);
  }

  /** `x` inserted after the head of `s`, given the claim for the tail. */
  lemma InsertRatedAtLater(x: TitleSummary, s: seq<TitleSummary>, k: real)
    requires s != [] && Rating(s[0]) > Rating(x)
    requires RatedAt(Insert(x, s[1..]), k) == (if Rating(x) == k then [x] else []) + RatedAt(s[1..], k)
    ensures RatedAt(Insert(x, s), k) == (if Rating(x) == k then [x] else []) + RatedAt(s, k)
  {
    var h, t := s[0], s[1..];
    assert Insert(x, s) == [h] + Insert(x, t);
    RatedAtCons(h, Insert(x, t), k);
    assert s == [h] + t;
    RatedAtCons(h, t, k);
    var mine, head := (if Rating(x) == k then [x] else []), (if Rating(h) == k then [h] else []);
    assert head == [] || mine == [];
    SwapEmpty(head, mine, RatedAt(t, k));
  }

  /** Two pieces of which one is empty can be put in either order. */
  lemma SwapEmpty<T>(a: seq<T>, b: seq<T>, c: seq<T>)
    requires a == [] || b == []
    ensures a + (b + c) == b + (a + c)
  {
  }

  lemma {:induction false} InsertRatedAt(x: TitleSummary, s: seq<TitleSummary>, k: real)
    ensures RatedAt(Insert(x, s), k) == (if Rating(x) == k then [x] else []) + RatedAt(s, k)
  {
    if s == [] || Rating(s[0]) <= Rating(x) {
      InsertRatedAtFront(x, s, k);
    } else {
      InsertRatedAt(x, s[1..], k);
      InsertRatedAtLater(x, s, k);
    }
  }

  /** The sort is stable: for every rating, the entries with that rating
      come out in the order they went in. */
  lemma {:induction false} SortByRatingStable(s: seq<TitleSummary>, k: real)
    ensures RatedAt(SortByRating(s), k) == RatedAt(s, k)
  {
    if s != [] {
      SortByRatingStable(s[1..], k);
      InsertRatedAt(s[0], SortByRating(s[1..]), k);
    }
  }

  lemma {:induction false} RatedAtMembers(s: seq<TitleSummary>, k: real)
    ensures forall t :: t in RatedAt(s, k) <==> t in s && Rating(t) == k
  {
    if s != [] {
      RatedAtMembers(s[1..], k);
      assert s == [s[0]] + s[1..];
    }
  }

  /** `a` and `b` list the entries of each rating in the same order. */
  ghost predicate SameOrderAtEveryRating(a: seq<TitleSummary>, b: seq<TitleSummary>)
  {
    forall k :: RatedAt(a, k) == RatedAt(b, k)
  }

  /** Two lists ordered by rating, with the same entries in the same order
      at every rating, start with the same entry: each head has the
      highest rating of its list, so the heads have the same rating and
      each is the first of that rating in both lists. */
  lemma SameHead(a: seq<TitleSummary>, b: seq<TitleSummary>)
    requires a != [] && b != []
    requires Descending(a) && Descending(b)
    requires SameOrderAtEveryRating(a, b)
    ensures a[0] == b[0]
  {
    var ka, kb := Rating(a[0]), Rating(b[0]);
    RatedAtMembers(a, kb);
    RatedAtMembers(b, ka);
    assert RatedAt(a, kb) == RatedAt(b, kb);
    assert RatedAt(a, ka) == RatedAt(b, ka);
    assert b[0] in RatedAt(a, kb) by { assert RatedAt(b, kb)[0] == b[0]; }
    assert a[0] in RatedAt(b, ka) by { assert RatedAt(a, ka)[0] == a[0]; }
    assert ka == kb;
    assert a[0] == RatedAt(a, ka)[0] == RatedAt(b, ka)[0] == b[0];
  }

  /** Dropping a common head keeps the same order at every rating. */
  lemma SameOrderTails(a: seq<TitleSummary>, b: seq<TitleSummary>)
    requires a != [] && b != [] && a[0] == b[0]
    requires SameOrderAtEveryRating(a, b)
    ensures SameOrderAtEveryRating(a[1..], b[1..])
  {
    forall k
      ensures RatedAt(a[1..], k) == RatedAt(b[1..], k)
    {
      assert RatedAt(a, k) == RatedAt(b, k);
      if k == Rating(a[0]) {
        var ta, tb := RatedAt(a[1..], k), RatedAt(b[1..], k);
        assert RatedAt(a, k) == [a[0]] + ta;
        assert RatedAt(b, k) == [b[0]] + tb;
        assert ta == ([a[0]] + ta)[1..] && tb == ([b[0]] + tb)[1..];
      } else {
        assert RatedAt(a, k) == RatedAt(a[1..], k);
        assert RatedAt(b, k) == RatedAt(b[1..], k);
      }
    }
  }

  /** Two lists, each ordered by rating and each with the same entries in the
      same order at every rating, are the same list. */
  lemma {:induction false} StableOrderUnique(a: seq<TitleSummary>, b: seq<TitleSummary>)
    requires Descending(a) && Descending(b)
    requires SameOrderAtEveryRating(a, b)
    ensures a == b
    decreases |a| + |b|
  {
    if a == [] || b == [] {
      var k := if a != [] then Rating(a[0]) else if b != [] then Rating(b[0]) else 0.0;
      assert RatedAt(a, k) == RatedAt(b, k);
    } else {
      SameHead(a, b);
      SameOrderTails(a, b);
      StableOrderUnique(a[1..], b[1..]);
      assert a == [a[0]] + a[1..] && b == [b[0]] + b[1..];
    }
  }

  /** `SortByRating(s)` is the one list that is ordered by rating (highest
      first) and keeps the input order at every rating, so any stable sort
      with this comparator (as `Array.prototype.sort` is required to be)
      produces exactly it. */
  lemma SortByRatingCharacterized(s: seq<TitleSummary>, r: seq<TitleSummary>)
    ensures r == SortByRating(s) <==> Descending(r) && SameOrderAtEveryRating(r, s)
  {
    var sorted := SortByRating(s);
    forall k
      ensures RatedAt(sorted, k) == RatedAt(s, k)
    {
      SortByRatingStable(s, k);
    }
    if Descending(r) && SameOrderAtEveryRating(r, s) {
      StableOrderUnique(r, sorted);
    }
  }

  /** Sorting a sorted list changes nothing. */
  lemma SortByRatingIdempotent(s: seq<TitleSummary>)
    ensures SortByRating(SortByRating(s)) == SortByRating(s)
  {
    var once := SortByRating(s);
    SortByRatingCharacterized(once, once);
  }

  // ---------------------------------------------------------------------
  // What the page shows
  // ---------------------------------------------------------------------

  /** The cards of the grid: the entries with a poster, best rated first. */
  function Shown(results: seq<TitleSummary>): (cards: seq<TitleSummary>)
    ensures multiset(cards) == multiset(WithPosters(results))
    ensures Descending(cards)
    ensures forall t :: t in cards <==> t in results && HasPoster(t)
  {
    var cards := SortByRating(WithPosters(results));
    WithPostersExact(results);
    assert forall t :: t in cards <==> t in multiset(cards);
    cards
  }

  /** The page body: six skeleton cards while loading; otherwise the grid,
      the count with its noun, and the no-posters message. */
  datatype Screen =
    | Skeletons(placeholders: nat)
    | Listing(cards: seq<TitleSummary>, count: nat, noun: string, noPostersMessage: bool)

  const SKELETON_COUNT := 6

  function Render(results: seq<TitleSummary>, loading: bool): (screen: Screen)
    ensures loading ==> screen == Skeletons(SKELETON_COUNT)
    ensures !loading ==> screen.Listing? && screen.cards == Shown(results) && screen.count == |screen.cards|
    ensures !loading ==> (screen.noun == "title" <==> screen.count == 1) && (screen.noun == "titles" <==> screen.count != 1)
    ensures !loading ==> (screen.noPostersMessage <==> forall t :: t in results ==> !HasPoster(t))
  {
    if loading then Skeletons(SKELETON_COUNT)
    else
      var cards := Shown(results);
      assert cards != [] ==> cards[0] in cards;
      Listing(cards, |cards|, if |cards| != 1 then "titles" else "title", |cards| == 0)
  }

  /** Two results, one with a poster and one without: exactly one card. */
  lemma OnePosterOneCard(withPoster: TitleSummary, without: TitleSummary)
    requires HasPoster(withPoster) && !HasPoster(without)
    ensures Render([withPoster, without], false).cards == [withPoster]
  {
    assert [withPoster, without][1..] == [without] && [without][1..] == [];
    assert Filter(HasPoster, [without]) == [];
    assert WithPosters([withPoster, without]) == [withPoster];
  }

  /** Three entries with posters all survive the filter. */
  lemma ThreePostersKept(a: TitleSummary, b: TitleSummary, c: TitleSummary)
    requires HasPoster(a) && HasPoster(b) && HasPoster(c)
    ensures WithPosters([a, b, c]) == [a, b, c]
  {
    assert [a, b, c][1..] == [b, c] && [b, c][1..] == [c];
    assert Filter(HasPoster, [c]) == [c];
    assert Filter(HasPoster, [b, c]) == [b, c];
  }

  /** Ratings none, 7.0 and 9.2 are sorted as 9.2, 7.0, then the unrated
      entry. */
  lemma RatingOrderSorted(a: TitleSummary, b: TitleSummary, c: TitleSummary)
    requires a.rating == None && b.rating == Some(7.0) && c.rating == Some(9.2)
    ensures SortByRating([a, b, c]) == [c, b, a]
  {
    assert [a, b, c][1..] == [b, c] && [b, c][1..] == [c];
    assert SortByRating([c]) == [c];
    assert Insert(b, [c]) == [c] + Insert(b, []) == [c, b];
    assert SortByRating([b, c]) == [c, b];
    assert Insert(a, [b]) == [b, a];
    assert [c, b][1..] == [b];
    assert Insert(a, [c, b]) == [c] + Insert(a, [b]) == [c, b, a];
  }

  /** Ratings none, 7.0 and 9.2 (all with posters) are shown as 9.2, 7.0,
      then the unrated entry. */
  lemma RatingOrderExample(a: TitleSummary, b: TitleSummary, c: TitleSummary)
    requires HasPoster(a) && HasPoster(b) && HasPoster(c)
    requires a.rating == None && b.rating == Some(7.0) && c.rating == Some(9.2)
    ensures Shown([a, b, c]) == [c, b, a]
  {
    ThreePostersKept(a, b, c);
    RatingOrderSorted(a, b, c);
  }
}
