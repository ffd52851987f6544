/** The wishlist hearts of the featured F+NCTION products
    (src/components/home/FeaturedProducts.tsx): `likedProducts` is a list of
    product ids; `toggleLike` removes an id that is in it and appends one
    that is not, and a product's heart is filled while its id is liked. */
module FeaturedProducts {
  import opened Seqs

  /** The filter that drops every copy of `id`. */
  function IsNot(id: string): string -> bool {
    (p: string) => p != id
  }

  /** `toggleLike`'s updater: `prev.includes(id) ? prev.filter(p => p !== id)
      : [...prev, id]`. */
  function ToggleLike(prev: seq<string>, id: string): seq<string> {
    if id in prev then Filter(prev, IsNot(id)) else prev + [id]
  }

  /** The heart is filled exactly when the product's id is liked. */
  predicate HeartFilled(liked: seq<string>, id: string) {
    id in liked
  }

  /** No id appears twice. */
  predicate NoDuplicates(liked: seq<string>) {
    forall i, j :: 0 <= i < j < |liked| ==> liked[i] != liked[j]
  }

  /** Toggling flips the toggled product's heart and leaves every other
      product's heart as it was. */
  lemma ToggleFlipsOnlyThatHeart(prev: seq<string>, id: string, other: string)
    requires other != id
    ensures HeartFilled(ToggleLike(prev, id), id) <==> !HeartFilled(prev, id)
    ensures HeartFilled(ToggleLike(prev, id), other) <==> HeartFilled(prev, other)
  {
  }

  /** Liking an id that is not yet liked appends it after the others. */
  lemma LikeAppends(prev: seq<string>, id: string)
    requires id !in prev
    ensures |ToggleLike(prev, id)| == |prev| + 1
    ensures ToggleLike(prev, id)[..|prev|] == prev && ToggleLike(prev, id)[|prev|] == id
  {
  }

  /** Unliking removes every copy of the id, keeps every copy of each other
      id, and keeps the others in their order. */
  lemma UnlikeRemovesEveryCopy(prev: seq<string>, id: string, other: string)
    requires id in prev && other != id
    ensures multiset(ToggleLike(prev, id))[id] == 0
    ensures multiset(ToggleLike(prev, id))[other] == multiset(prev)[other]
    ensures exists idx :: Embeds(ToggleLike(prev, id), prev, idx)
  {
    FilterCounts(prev, IsNot(id), id);
    FilterCounts(prev, IsNot(id), other);
    FilterKeepsOrder(prev, IsNot(id));
  }

  /** Liking and then unliking an id that was not liked restores the list. */
  lemma ToggleTwiceRestores(prev: seq<string>, id: string)
    requires id !in prev
    ensures ToggleLike(ToggleLike(prev, id), id) == prev
  {
    FilterAppend(prev, [id], IsNot(id));
    FilterKeepsAll(prev, IsNot(id));
  }

  /** Unliking and then liking again is not the identity: the id moves to the
      end of the list. */
  lemma ToggleTwiceMovesToEnd()
    ensures ToggleLike(ToggleLike(["calm", "focus"], "calm"), "calm") == ["focus", "calm"]
  {
    var liked := ["calm", "focus"];
    assert liked[1..] == ["focus"];
    assert liked[1..][1..] == [];
    assert Filter(liked, IsNot("calm")) == ["focus"];
  }

  /** A list without repeated ids keeps none under a toggle. */
  lemma ToggleKeepsNoDuplicates(prev: seq<string>, id: string)
    requires NoDuplicates(prev)
    ensures NoDuplicates(ToggleLike(prev, id))
  {
    var next := ToggleLike(prev, id);
    if id in prev {
      FilterKeepsOrder(prev, IsNot(id));
      var idx :| Embeds(next, prev, idx);
      forall i, j | 0 <= i < j < |next|
        ensures next[i] != next[j]
      {
        assert idx[i] < idx[j];
      }
    }
  }
}
