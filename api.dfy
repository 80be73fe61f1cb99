/**
  The three REST resources the client reads and writes, as the client sees them:
  the record shapes of api/images.ts, api/favorites.ts and api/votes.ts, the
  mutations the home screen dispatches, and the effect the remote service is
  assumed to have on the lists once such a mutation succeeds and the list is
  fetched again.
 */
module Api {

  /** An image listed by `GET /images`. */
  datatype CatImage = CatImage(id: string, url: string, width: int, height: int)

  /** A favorite record: its own id and the image it marks. */
  datatype Favorite = Favorite(id: int, imageId: string)

  /** A vote record; the client sends 1 for up and 0 for down. */
  datatype Vote = Vote(id: int, imageId: string, value: int)

  /** The body of the answer to `POST /images/upload`. */
  datatype UploadResponse = UploadResponse(id: string, url: string, approved: int, width: int, height: int)

  /**
    A mutation request: `POST /favourites {image_id}`,
    `DELETE /favourites/{id}` or `POST /votes {image_id, value}`.
   */
  datatype Intent =
    | AddFavorite(imageId: string)
    | RemoveFavorite(favoriteId: int)
    | AddVote(imageId: string, value: int)

  /** The favorites whose record id differs from `favoriteId`. */
  function WithoutFavorite(favs: seq<Favorite>, favoriteId: int): (r: seq<Favorite>)
    ensures forall i :: 0 <= i < |r| ==> r[i] in favs && r[i].id != favoriteId
    ensures forall i :: 0 <= i < |favs| && favs[i].id != favoriteId ==> favs[i] in r
  {
    if favs == [] then []
    else if favs[0].id == favoriteId then WithoutFavorite(favs[1..], favoriteId)
    else [favs[0]] + WithoutFavorite(favs[1..], favoriteId)
  }

  /**
    The favorites list as fetched again after `intent` succeeded: a new record
    with the server-chosen id `freshId` is appended, or the record with the
    given id is gone. Vote intents leave it alone.
   */
  function FavoritesAfter(favs: seq<Favorite>, intent: Intent, freshId: int): (r: seq<Favorite>)
    ensures intent.AddFavorite? ==>
      |r| == |favs| + 1 && r[..|favs|] == favs && r[|favs|] == Favorite(freshId, intent.imageId)
    ensures intent.RemoveFavorite? ==>
      (forall i :: 0 <= i < |r| ==> r[i] in favs && r[i].id != intent.favoriteId) &&
      (forall i :: 0 <= i < |favs| && favs[i].id != intent.favoriteId ==> favs[i] in r)
    ensures intent.AddVote? ==> r == favs
  {
    match intent
    case AddFavorite(imageId) => favs + [Favorite(freshId, imageId)]
    case RemoveFavorite(favoriteId) => WithoutFavorite(favs, favoriteId)
    case AddVote(_, _) => favs
  }

  /**
    The votes list as fetched again after `intent` succeeded: a vote intent
    appends a record with the server-chosen id `freshId`; favorite intents
    leave it alone.
   */
  function VotesAfter(votes: seq<Vote>, intent: Intent, freshId: int): (r: seq<Vote>)
    ensures intent.AddVote? ==>
      |r| == |votes| + 1 && r[..|votes|] == votes && r[|votes|] == Vote(freshId, intent.imageId, intent.value)
    ensures intent.AddVote? ==> multiset(r) == multiset(votes) + multiset{Vote(freshId, intent.imageId, intent.value)}
    ensures !intent.AddVote? ==> r == votes
  {
    match intent
    case AddVote(imageId, value) => votes + [Vote(freshId, imageId, value)]
    case _ => votes
  }
}
