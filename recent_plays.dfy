/**
 * The recent-plays ledger (js/player.js, addToRecentPlays): most recent first, one entry per
 * media identifier, capped at ten entries.
 */
module RecentPlays {
  import opened Options
  import opened Tracks

  const CAP: nat := 10

  /** No two entries share a media identifier. */
  predicate DistinctIds(plays: seq<Track>) {
    forall i, j :: 0 <= i < j < |plays| ==> plays[i].youtubeId != plays[j].youtubeId
  }

  /** `a` is `b` with some entries removed, the rest in their original order. */
  predicate IsSubsequence(a: seq<Track>, b: seq<Track>)
    decreases |b|
  {
    if a == [] then true
    else if b == [] then false
    else if a[0] == b[0] then IsSubsequence(a[1..], b[1..])
    else IsSubsequence(a, b[1..])
  }

  /** `filter(s => s.youtubeId !== id)`. */
  function WithoutId(plays: seq<Track>, id: Option<string>): (r: seq<Track>)
    ensures forall i :: 0 <= i < |r| ==> r[i].youtubeId != id
    ensures forall t :: t in plays && t.youtubeId != id ==> t in r
    ensures forall t :: t in r ==> t in plays
    ensures IsSubsequence(r, plays)
    ensures |r| <= |plays|
  {
    if plays == [] then []
    else if plays[0].youtubeId == id then WithoutId(plays[1..], id)
    else [plays[0]] + WithoutId(plays[1..], id)
  }

  /** The filter keeps every entry with another identifier as many times as it occurs. */
  lemma {:induction false} WithoutIdCounts(plays: seq<Track>, id: Option<string>, t: Track)
    requires t.youtubeId != id
    ensures multiset(WithoutId(plays, id))[t] == multiset(plays)[t]
  {
    if plays != [] {
      WithoutIdCounts(plays[1..], id, t);
      var head, tail := plays[0], plays[1..];
      var rest := WithoutId(tail, id);
      assert plays == [head] + tail;
      assert multiset(plays)[t] == multiset([head])[t] + multiset(tail)[t];
      if head.youtubeId == id {
        assert WithoutId(plays, id) == rest;
      } else {
        assert WithoutId(plays, id) == [head] + rest;
        assert multiset([head] + rest)[t] == multiset([head])[t] + multiset(rest)[t];
      }
    }
  }

  /**
   * The ledger after `song` is played: entries with its identifier removed, `song` put in
   * front, and the oldest entry dropped when that makes more than ten.
   */
  function Add(plays: seq<Track>, song: Track): (r: seq<Track>)
    ensures r != [] && r[0] == song
    ensures forall i :: 1 <= i < |r| ==> r[i].youtubeId != song.youtubeId
    ensures |plays| <= CAP ==> |r| <= CAP
  {
    var pushed := [song] + WithoutId(plays, song.youtubeId);
    if |pushed| > CAP then pushed[..|pushed| - 1] else pushed
  }

  /** Dropping the tail of a subsequence leaves a subsequence. */
  lemma {:induction false} PrefixOfSubsequence(a: seq<Track>, b: seq<Track>, n: nat)
    requires IsSubsequence(a, b) && n <= |a|
    ensures IsSubsequence(a[..n], b)
    decreases |b|
  {
    if n == 0 {
      assert a[..n] == [];
    } else if a[0] == b[0] {
      PrefixOfSubsequence(a[1..], b[1..], n - 1);
      assert a[..n][1..] == a[1..][..n - 1];
    } else {
      PrefixOfSubsequence(a, b[1..], n);
    }
  }

  /** Entries other than the newest keep their relative order from the old ledger. */
  lemma AddKeepsOrder(plays: seq<Track>, song: Track)
    ensures IsSubsequence(Add(plays, song)[1..], plays)
  {
    var kept := WithoutId(plays, song.youtubeId);
    var r := Add(plays, song);
    assert r[1..] == kept[..|r| - 1];
    PrefixOfSubsequence(kept, plays, |r| - 1);
  }

  lemma {:induction false} WithoutIdKeepsDistinct(plays: seq<Track>, id: Option<string>)
    requires DistinctIds(plays)
    ensures DistinctIds(WithoutId(plays, id))
  {
    if plays != [] {
      WithoutIdKeepsDistinct(plays[1..], id);
      var rest := WithoutId(plays[1..], id);
      forall t | t in rest
        ensures t.youtubeId != plays[0].youtubeId
      {
        var k :| 0 <= k < |plays[1..]| && plays[1..][k] == t;
        assert plays[k + 1] == t;
      }
      if plays[0].youtubeId != id {
        var r := [plays[0]] + rest;
        assert WithoutId(plays, id) == r;
        forall i, j | 0 <= i < j < |r|
          ensures r[i].youtubeId != r[j].youtubeId
        {
          assert r[j] == rest[j - 1];
          if i > 0 {
            assert r[i] == rest[i - 1];
          }
        }
      }
    }
  }

  /** The ledger never holds two entries with the same media identifier. */
  lemma AddKeepsDistinct(plays: seq<Track>, song: Track)
    requires DistinctIds(plays)
    ensures DistinctIds(Add(plays, song))
  {
    WithoutIdKeepsDistinct(plays, song.youtubeId);
  }

  /**
   * Which entries survive: the filtered old ledger in its order, minus its last (oldest)
   * entry exactly when the new ledger would otherwise exceed ten.
   */
  lemma AddEvictsOldest(plays: seq<Track>, song: Track)
    ensures var kept := WithoutId(plays, song.youtubeId);
            Add(plays, song)[1..] == if |kept| < CAP then kept else kept[..|kept| - 1]
  {
    var kept := WithoutId(plays, song.youtubeId);
    var pushed := [song] + kept;
    var r := Add(plays, song);
    assert r == if |pushed| > CAP then pushed[..|pushed| - 1] else pushed;
    if |pushed| > CAP {
      assert r[1..] == kept[..|kept| - 1];
    } else {
      assert r[1..] == kept;
    }
  }

  /** For a ledger within the cap, the survivors are the first min(9, n) entries of the filtered ledger. */
  lemma AddKeepsNewest(plays: seq<Track>, song: Track)
    requires |plays| <= CAP
    ensures var kept := WithoutId(plays, song.youtubeId);
            Add(plays, song)[1..] == kept[..if |kept| < CAP then |kept| else CAP - 1]
  {
    var kept := WithoutId(plays, song.youtubeId);
    AddEvictsOldest(plays, song);
    if |kept| < CAP {
      assert kept[..|kept|] == kept;
    }
  }

  /** Below the cap nothing is evicted: every entry with another identifier is still there. */
  lemma AddKeepsOthers(plays: seq<Track>, song: Track, t: Track)
    requires |plays| < CAP && t in plays && t.youtubeId != song.youtubeId
    ensures t in Add(plays, song)
  {
  }

  /** Playing the same track twice moves it to the front once, without duplicating it. */
  lemma AddTwice(plays: seq<Track>, song: Track)
    requires |plays| <= CAP
    ensures Add(Add(plays, song), song) == Add(plays, song)
  {
    var once := Add(plays, song);
    WithoutIdAbsent(once[1..], song.youtubeId);
    assert once == [once[0]] + once[1..];
  }

  lemma {:induction false} WithoutIdAbsent(plays: seq<Track>, id: Option<string>)
    requires forall i :: 0 <= i < |plays| ==> plays[i].youtubeId != id
    ensures WithoutId(plays, id) == plays
  {
    if plays != [] {
      WithoutIdAbsent(plays[1..], id);
      assert plays == [plays[0]] + plays[1..];
    }
  }
}
