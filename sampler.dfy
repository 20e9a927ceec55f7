/** The pure part of `getTracksToPlay`: clamp the requested amount, then take that many
    songs from a permutation of the stored list. */
module Sampler {
  import opened DataClasses

  /** The amount asked for when the caller gives none. */
  const DefaultAmount: nat := 10

  /** `shuffled` holds the same songs as `tracks`, each as often, in some order. */
  predicate IsPermutationOf(shuffled: seq<Song>, tracks: seq<Song>) {
    multiset(shuffled) == multiset(tracks)
  }

  /** `if (amount > tracks.size) tracks.size else amount`: the smaller of the two. */
  function ClampedAmount(amount: nat, size: nat): (n: nat)
    ensures n <= amount && n <= size
    ensures n == amount || n == size
  {
    if amount > size then size else amount
  }

  /** A prefix holds no song more often than the whole sequence does. */
  lemma PrefixSubMultiset(s: seq<Song>, k: nat)
    requires k <= |s|
    ensures multiset(s[..k]) <= multiset(s)
  {
    assert s == s[..k] + s[k..];
  }

  /** `shuffledTracks.take(_amount)` for a permutation `shuffled` of `tracks`: the first
      `min(amount, |tracks|)` songs of the permutation. They introduce no song, and no extra
      copy of a song, that `tracks` lacks; asking for at least all of them returns all of them. */
  function Sample(tracks: seq<Song>, amount: nat, shuffled: seq<Song>): (r: seq<Song>)
    requires IsPermutationOf(shuffled, tracks)
    ensures |shuffled| == |tracks|
    ensures |r| == ClampedAmount(amount, |tracks|)
    ensures r == shuffled[..|r|]
    ensures multiset(r) <= multiset(tracks)
    ensures amount >= |tracks| ==> IsPermutationOf(r, tracks)
  {
    assert |shuffled| == |multiset(shuffled)| == |tracks|;
    var r := shuffled[..ClampedAmount(amount, |tracks|)];
    PrefixSubMultiset(shuffled, |r|);
    assert amount >= |tracks| ==> r == shuffled;
    r
  }
}
