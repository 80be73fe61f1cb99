/**
  The home screen of app/index.tsx: the per-image state it derives from the
  independently fetched images, favorites and votes lists, the mutations its
  buttons dispatch, and the choice between the loading, error and grid views.
  A list that has not arrived yet is `None`.
 */
module Home {
  import opened Wrappers
  import opened Api

  // ---------------------------------------------------------------- favorites

  /** Whether some favorite record refers to `imageId` (the `some` of `isFavorite`). */
  predicate AnyFavoriteFor(favs: seq<Favorite>, imageId: string)
    ensures AnyFavoriteFor(favs, imageId) <==> exists i :: 0 <= i < |favs| && favs[i].imageId == imageId
  {
    if favs == [] then false
    else if favs[0].imageId == imageId then true
    else
      assert forall i :: 0 < i < |favs| ==> favs[i] == favs[1..][i - 1];
      AnyFavoriteFor(favs[1..], imageId)
  }

  /** `k` is the position of the first favorite of `imageId`. */
  ghost predicate IsFirstFavoriteFor(favs: seq<Favorite>, imageId: string, k: int)
  {
    0 <= k < |favs| && favs[k].imageId == imageId &&
    forall j :: 0 <= j < k ==> favs[j].imageId != imageId
  }

  /** Whether the heart of `imageId` is filled; false while the favorites are not loaded. */
  function IsFavorite(favorites: Option<seq<Favorite>>, imageId: string): (r: bool)
    ensures r <==> favorites.Some? && exists i :: 0 <= i < |favorites.value| && favorites.value[i].imageId == imageId
    ensures favorites.None? || favorites.value == [] ==> !r
  {
    match favorites
    case None => false
    case Some(favs) => AnyFavoriteFor(favs, imageId)
  }

  /** The first favorite record that refers to `imageId`, if any (the `find` of `toggleFavorite`). */
  function FindFavorite(favs: seq<Favorite>, imageId: string): (r: Option<Favorite>)
    ensures r.None? <==> !AnyFavoriteFor(favs, imageId)
    ensures r.Some? ==> exists k :: IsFirstFavoriteFor(favs, imageId, k) && favs[k] == r.value
  {
    if favs == [] then None
    else if favs[0].imageId == imageId then
      assert IsFirstFavoriteFor(favs, imageId, 0);
      Some(favs[0])
    else
      var r := FindFavorite(favs[1..], imageId);
      assert r.Some? ==> exists k :: IsFirstFavoriteFor(favs, imageId, k) && favs[k] == r.value by {
        if r.Some? {
          var k :| IsFirstFavoriteFor(favs[1..], imageId, k) && favs[1..][k] == r.value;
          assert IsFirstFavoriteFor(favs, imageId, k + 1);
        }
      }
      r
  }

  /**
    The mutation the heart button dispatches: delete the first favorite record
    of the image when there is one, otherwise create one for the image.
   */
  function ToggleFavorite(favorites: Option<seq<Favorite>>, imageId: string): (r: Intent)
    ensures r.RemoveFavorite? <==> IsFavorite(favorites, imageId)
    ensures r.AddFavorite? <==> !IsFavorite(favorites, imageId)
    ensures r.AddFavorite? ==> r.imageId == imageId
    ensures r.RemoveFavorite? ==>
      exists k :: IsFirstFavoriteFor(favorites.value, imageId, k) && favorites.value[k].id == r.favoriteId
  {
    var fav := if favorites.Some? then FindFavorite(favorites.value, imageId) else None;
    match fav
    case Some(f) => RemoveFavorite(f.id)
    case None => AddFavorite(imageId)
  }

  /** No two favorite records share an id, and no image has two favorite records. */
  ghost predicate WellFormedFavorites(favs: seq<Favorite>)
  {
    forall i, j :: 0 <= i < j < |favs| ==> favs[i].id != favs[j].id && favs[i].imageId != favs[j].imageId
  }

  // -------------------------------------------------------------------- votes

  /** `voteCat` passes the image id and the value unchanged to the vote mutation. */
  function VoteCat(imageId: string, value: int): (r: Intent)
    ensures r.AddVote? && r.imageId == imageId && r.value == value
    ensures forall votes: seq<Vote>, freshId: int ::
      VotesAfter(votes, r, freshId) == votes + [Vote(freshId, imageId, value)]
  {
    AddVote(imageId, value)
  }

  /** The "Up" button of a card. */
  function UpVote(item: CatImage): (r: Intent)
    ensures r == AddVote(item.id, 1)
  {
    VoteCat(item.id, 1)
  }

  /** The "Down" button of a card. */
  function DownVote(item: CatImage): (r: Intent)
    ensures r == AddVote(item.id, 0)
  {
    VoteCat(item.id, 0)
  }

  /** What one vote adds to a score: +1 for the value 1, -1 for any other value. */
  function VoteWeight(v: Vote): int
  {
    if v.value == 1 then 1 else -1
  }

  /** The votes that refer to `imageId`, each as often as it occurs (the `filter` of `getScore`). */
  function VotesFor(votes: seq<Vote>, imageId: string): (r: seq<Vote>)
    ensures |r| <= |votes|
    ensures forall v :: multiset(r)[v] == if v.imageId == imageId then multiset(votes)[v] else 0
  {
    if votes == [] then []
    else
      assert votes == [votes[0]] + votes[1..];
      if votes[0].imageId == imageId then [votes[0]] + VotesFor(votes[1..], imageId)
      else VotesFor(votes[1..], imageId)
  }

  /**
    Left fold of the vote weights onto `total` (the `reduce` of `getScore`,
    which starts from 0): each vote moves the running total by one step.
   */
  function Tally(total: int, votes: seq<Vote>): (r: int)
    ensures total - |votes| <= r <= total + |votes|
    ensures (r - total + |votes|) % 2 == 0
    decreases |votes|
  {
    if votes == [] then total else Tally(total + VoteWeight(votes[0]), votes[1..])
  }

  /** Reference count: votes for `imageId` with the value 1. */
  function UpCount(votes: seq<Vote>, imageId: string): nat
  {
    if votes == [] then 0
    else (if votes[0].imageId == imageId && votes[0].value == 1 then 1 else 0) + UpCount(votes[1..], imageId)
  }

  /** Reference count: votes for `imageId` with any value other than 1. */
  function OtherCount(votes: seq<Vote>, imageId: string): nat
  {
    if votes == [] then 0
    else (if votes[0].imageId == imageId && votes[0].value != 1 then 1 else 0) + OtherCount(votes[1..], imageId)
  }

  /** The net score shown under a card; 0 while the votes are not loaded. */
  function GetScore(votes: Option<seq<Vote>>, imageId: string): (r: int)
    ensures votes.None? ==> r == 0
    ensures votes.Some? ==> r == UpCount(votes.value, imageId) - OtherCount(votes.value, imageId)
  {
    match votes
    case None => 0
    case Some(vs) =>
      TallyIsUpMinusOther(vs, imageId);
      Tally(0, VotesFor(vs, imageId))
  }

  lemma {:induction false} TallyShift(total: int, votes: seq<Vote>)
    ensures Tally(total, votes) == total + Tally(0, votes)
    decreases |votes|
  {
    if votes != [] {
      TallyShift(total + VoteWeight(votes[0]), votes[1..]);
      TallyShift(VoteWeight(votes[0]), votes[1..]);
    }
  }

  /** The fold over the filtered votes is the count of up votes minus the count of the others. */
  lemma {:induction false} TallyIsUpMinusOther(votes: seq<Vote>, imageId: string)
    ensures Tally(0, VotesFor(votes, imageId)) == UpCount(votes, imageId) - OtherCount(votes, imageId)
    decreases |votes|
  {
    if votes != [] {
      TallyIsUpMinusOther(votes[1..], imageId);
      if votes[0].imageId == imageId {
        var rest := VotesFor(votes[1..], imageId);
        assert ([votes[0]] + rest)[1..] == rest;
        TallyShift(VoteWeight(votes[0]), rest);
      }
    }
  }

  lemma {:induction false} CountsOfConcat(a: seq<Vote>, b: seq<Vote>, imageId: string)
    ensures UpCount(a + b, imageId) == UpCount(a, imageId) + UpCount(b, imageId)
    ensures OtherCount(a + b, imageId) == OtherCount(a, imageId) + OtherCount(b, imageId)
    decreases |a|
  {
    if a == [] {
      assert a + b == b;
    } else {
      assert (a + b)[1..] == a[1..] + b;
      CountsOfConcat(a[1..], b, imageId);
    }
  }

  /** An image nobody voted on scores 0. */
  lemma {:induction false} ScoreWithoutVotesIsZero(votes: seq<Vote>, imageId: string)
    requires forall i :: 0 <= i < |votes| ==> votes[i].imageId != imageId
    ensures GetScore(Some(votes), imageId) == 0
    decreases |votes|
  {
    if votes != [] {
      ScoreWithoutVotesIsZero(votes[1..], imageId);
    }
  }

  /** One more vote moves the score of its own image by its weight and no other score. */
  lemma ScoreAfterAppend(votes: seq<Vote>, v: Vote, imageId: string)
    ensures GetScore(Some(votes + [v]), imageId) ==
            GetScore(Some(votes), imageId) + (if v.imageId == imageId then VoteWeight(v) else 0)
    ensures v.imageId == imageId && v.value == 1 ==> GetScore(Some(votes + [v]), imageId) == GetScore(Some(votes), imageId) + 1
    ensures v.imageId == imageId && v.value != 1 ==> GetScore(Some(votes + [v]), imageId) == GetScore(Some(votes), imageId) - 1
  {
    CountsOfConcat(votes, [v], imageId);
    assert [v][1..] == [];
  }

  /** A vote for another image, wherever it stands in the list, does not change the score. */
  lemma ScoreIgnoresOtherImages(before: seq<Vote>, v: Vote, after: seq<Vote>, imageId: string)
    requires v.imageId != imageId
    ensures GetScore(Some(before + [v] + after), imageId) == GetScore(Some(before + after), imageId)
  {
    CountsOfConcat(before + [v], after, imageId);
    CountsOfConcat(before, [v], imageId);
    CountsOfConcat(before, after, imageId);
    assert [v][1..] == [];
  }

  /** Taking out the vote at `k` removes exactly that vote's share of the counts. */
  lemma CountsWithoutAt(votes: seq<Vote>, k: nat, imageId: string)
    requires k < |votes|
    ensures multiset(votes[..k] + votes[k + 1..]) == multiset(votes) - multiset{votes[k]}
    ensures UpCount(votes, imageId) == UpCount(votes[..k] + votes[k + 1..], imageId) + UpCount([votes[k]], imageId)
    ensures OtherCount(votes, imageId) == OtherCount(votes[..k] + votes[k + 1..], imageId) + OtherCount([votes[k]], imageId)
  {
    var v := votes[k];
    assert votes == votes[..k] + [v] + votes[k + 1..];
    CountsOfConcat(votes[..k] + [v], votes[k + 1..], imageId);
    CountsOfConcat(votes[..k], [v], imageId);
    CountsOfConcat(votes[..k], votes[k + 1..], imageId);
  }

  /** Takes the first vote of `votes` out of its permutation `reordered`. */
  lemma TakeOutFirst(votes: seq<Vote>, reordered: seq<Vote>, imageId: string) returns (rest: seq<Vote>)
    requires votes != [] && multiset(votes) == multiset(reordered)
    ensures multiset(rest) == multiset(votes[1..])
    ensures UpCount(reordered, imageId) == UpCount(rest, imageId) + UpCount([votes[0]], imageId)
    ensures OtherCount(reordered, imageId) == OtherCount(rest, imageId) + OtherCount([votes[0]], imageId)
  {
    var v := votes[0];
    assert v in multiset(reordered);
    var k :| 0 <= k < |reordered| && reordered[k] == v;
    rest := reordered[..k] + reordered[k + 1..];
    CountsWithoutAt(reordered, k, imageId);
    assert votes == [v] + votes[1..];
    assert multiset(votes[1..]) == multiset(votes) - multiset{v};
  }

  lemma {:induction false} CountsIgnoreOrder(votes: seq<Vote>, reordered: seq<Vote>, imageId: string)
    requires multiset(votes) == multiset(reordered)
    ensures UpCount(votes, imageId) == UpCount(reordered, imageId)
    ensures OtherCount(votes, imageId) == OtherCount(reordered, imageId)
    decreases |votes|
  {
    if votes == [] {
      assert |reordered| == |multiset(reordered)| == 0;
    } else {
      var rest := TakeOutFirst(votes, reordered, imageId);
      CountsIgnoreOrder(votes[1..], rest, imageId);
      CountsOfConcat([votes[0]], votes[1..], imageId);
      assert [votes[0]] + votes[1..] == votes;
    }
  }

  /** The score depends only on which votes were fetched, not on their order. */
  lemma ScoreIgnoresOrder(votes: seq<Vote>, reordered: seq<Vote>, imageId: string)
    requires multiset(votes) == multiset(reordered)
    ensures GetScore(Some(votes), imageId) == GetScore(Some(reordered), imageId)
  {
    CountsIgnoreOrder(votes, reordered, imageId);
  }

  /**
    Pressing "Up" on a card and fetching the votes again, in whatever order the
    service lists them, raises that card's score by exactly 1 and leaves every
    other card's score alone.
   */
  lemma UpVoteRaisesScore(votes: seq<Vote>, item: CatImage, freshId: int, refetched: seq<Vote>, other: string)
    requires multiset(refetched) == multiset(VotesAfter(votes, UpVote(item), freshId))
    ensures GetScore(Some(refetched), item.id) == GetScore(Some(votes), item.id) + 1
    ensures other != item.id ==> GetScore(Some(refetched), other) == GetScore(Some(votes), other)
  {
    var v := Vote(freshId, item.id, 1);
    ScoreIgnoresOrder(votes + [v], refetched, item.id);
    ScoreIgnoresOrder(votes + [v], refetched, other);
    ScoreAfterAppend(votes, v, item.id);
    ScoreAfterAppend(votes, v, other);
  }

  /**
    Pressing "Down" on a card and fetching the votes again lowers that card's
    score by exactly 1 and leaves every other card's score alone.
   */
  lemma DownVoteLowersScore(votes: seq<Vote>, item: CatImage, freshId: int, refetched: seq<Vote>, other: string)
    requires multiset(refetched) == multiset(VotesAfter(votes, DownVote(item), freshId))
    ensures GetScore(Some(refetched), item.id) == GetScore(Some(votes), item.id) - 1
    ensures other != item.id ==> GetScore(Some(refetched), other) == GetScore(Some(votes), other)
  {
    var v := Vote(freshId, item.id, 0);
    ScoreIgnoresOrder(votes + [v], refetched, item.id);
    ScoreIgnoresOrder(votes + [v], refetched, other);
    ScoreAfterAppend(votes, v, item.id);
    ScoreAfterAppend(votes, v, other);
  }

  /**
    On a well-formed favorites list, carrying out the heart button's mutation
    and fetching the favorites again flips that image's heart and no other.
   */
  lemma ToggleFlipsFavorite(favs: seq<Favorite>, imageId: string, freshId: int, other: string)
    requires WellFormedFavorites(favs)
    ensures IsFavorite(Some(FavoritesAfter(favs, ToggleFavorite(Some(favs), imageId), freshId)), imageId)
            == !IsFavorite(Some(favs), imageId)
    ensures other != imageId ==>
            IsFavorite(Some(FavoritesAfter(favs, ToggleFavorite(Some(favs), imageId), freshId)), other)
            == IsFavorite(Some(favs), other)
  {
    var intent := ToggleFavorite(Some(favs), imageId);
    var after := FavoritesAfter(favs, intent, freshId);
    if intent.RemoveFavorite? {
      var k :| IsFirstFavoriteFor(favs, imageId, k) && favs[k].id == intent.favoriteId;
      assert after == WithoutFavorite(favs, favs[k].id);
      forall i | 0 <= i < |after|
        ensures after[i].imageId != imageId
      {
        var j :| 0 <= j < |favs| && favs[j] == after[i];
        assert j != k;
      }
      if other != imageId && IsFavorite(Some(favs), other) {
        var j :| 0 <= j < |favs| && favs[j].imageId == other;
        assert j != k;
        assert favs[j] in after;
      }
    } else {
      assert after == favs + [Favorite(freshId, imageId)];
      assert after[|favs|].imageId == imageId;
      if other != imageId && IsFavorite(Some(after), other) {
        var j :| 0 <= j < |after| && after[j].imageId == other;
        assert j < |favs| && favs[j].imageId == other;
      }
      if other != imageId && IsFavorite(Some(favs), other) {
        var j :| 0 <= j < |favs| && favs[j].imageId == other;
        assert after[j].imageId == other;
      }
    }
  }

  /** One favorite and one up and one down vote for "a": the heart is filled and the score is 0. */
  lemma OneUpOneDownCancel()
    ensures IsFavorite(Some([Favorite(1, "a")]), "a")
    ensures GetScore(Some([Vote(10, "a", 1), Vote(11, "a", 0)]), "a") == 0
  {
    var votes := [Vote(10, "a", 1), Vote(11, "a", 0)];
    assert votes[1..] == [Vote(11, "a", 0)] && votes[1..][1..] == [];
  }

  // --------------------------------------------------------------- the screen

  /** The `Error` a query reports. */
  datatype QueryError = QueryError(message: string)

  /** What a query hook returns: its data (absent until loaded) and its status flags. */
  datatype Query<T> = Query(data: Option<T>, isLoading: bool, isError: bool, error: Option<QueryError>)

  /** One grid cell: the picture, whether its heart is filled, and its score. */
  datatype Card = Card(imageId: string, url: string, favorited: bool, score: int)

  /** What the home screen shows. */
  datatype HomeView = LoadingView | ErrorView(message: Option<string>) | GridView(cards: seq<Card>)

  /** The rows the grid renders: none while the images are absent. */
  function ImagesShown(images: Option<seq<CatImage>>): seq<CatImage>
  {
    if images.Some? then images.value else []
  }

  /** `renderItem` applied to every image, in order. */
  function Cards(images: seq<CatImage>, favorites: Option<seq<Favorite>>, votes: Option<seq<Vote>>): (r: seq<Card>)
    ensures |r| == |images|
    ensures forall i :: 0 <= i < |images| ==>
      r[i].imageId == images[i].id && r[i].url == images[i].url &&
      r[i].favorited == IsFavorite(favorites, images[i].id) && r[i].score == GetScore(votes, images[i].id)
  {
    if images == [] then []
    else
      var item := images[0];
      [Card(item.id, item.url, IsFavorite(favorites, item.id), GetScore(votes, item.id))] +
      Cards(images[1..], favorites, votes)
  }

  /** The first present error among the three, in argument order (images, favorites, votes). */
  function FirstError(a: Option<QueryError>, b: Option<QueryError>, c: Option<QueryError>): (r: Option<QueryError>)
    ensures r.Some? <==> a.Some? || b.Some? || c.Some?
    ensures a.Some? ==> r == a
    ensures a.None? && b.Some? ==> r == b
    ensures a.None? && b.None? ==> r == c
  {
    if a.Some? then a else if b.Some? then b else c
  }

  /** The loading / error / content gate of the home screen. */
  function RenderHome(images: Query<seq<CatImage>>, favorites: Query<seq<Favorite>>, votes: Query<seq<Vote>>): (v: HomeView)
    ensures images.isLoading || favorites.isLoading || votes.isLoading ==> v == LoadingView
    ensures v.ErrorView? <==>
      !(images.isLoading || favorites.isLoading || votes.isLoading) &&
      (images.isError || favorites.isError || votes.isError)
    ensures v.GridView? <==>
      !(images.isLoading || favorites.isLoading || votes.isLoading) &&
      !(images.isError || favorites.isError || votes.isError)
    ensures v.ErrorView? && images.error.Some? ==> v.message == Some(images.error.value.message)
    ensures v.ErrorView? && images.error.None? && favorites.error.Some? ==> v.message == Some(favorites.error.value.message)
    ensures v.ErrorView? && images.error.None? && favorites.error.None? && votes.error.Some? ==>
      v.message == Some(votes.error.value.message)
    ensures v.ErrorView? && images.error.None? && favorites.error.None? && votes.error.None? ==> v.message.None?
    ensures v.GridView? ==>
      var shown := ImagesShown(images.data);
      |v.cards| == |shown| &&
      forall i :: 0 <= i < |shown| ==>
        v.cards[i].imageId == shown[i].id && v.cards[i].url == shown[i].url &&
        v.cards[i].favorited == IsFavorite(favorites.data, shown[i].id) &&
        v.cards[i].score == GetScore(votes.data, shown[i].id)
  {
    if images.isLoading || favorites.isLoading || votes.isLoading then LoadingView
    else if images.isError || favorites.isError || votes.isError then
      var e := FirstError(images.error, favorites.error, votes.error);
      ErrorView(if e.Some? then Some(e.value.message) else None)
    else GridView(Cards(ImagesShown(images.data), favorites.data, votes.data))
  }
}
