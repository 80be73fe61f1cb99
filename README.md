# Cat gallery client: home-screen derived state and upload flow

A model, in Dafny, of the two pieces of logic in a small React Native client
for a public cat-image REST service:

- **The home screen** (`app/index.tsx`, module `Home` in `home.dfy`). It joins
  three independently fetched lists (images, favorites, votes) by image id.
  From them it derives whether each image's heart is filled and each image's
  net score. It picks the mutation the heart and vote buttons dispatch, and it
  chooses between the loading view, the error view and the grid. Lists that
  have not arrived are `None`. A dispatched mutation is returned as an
  `Api.Intent` value (`AddFavorite`, `RemoveFavorite`, `AddVote`), not sent.
- **The upload screen** (`app/upload.tsx`, module `Upload` in `upload.dfy`).
  The class `UploadScreen` holds the selected-image slot, the upload
  mutation's status, the alert on display, the requests submitted and the
  routes pushed. Its methods are the picker handler, the upload handler, the
  arrival of the service's answer, and a press on an alert's OK button. The
  permission answer, the picker's result and the network's outcome are method
  parameters. The render of the screen is a pure function of the selection and
  the status.
- `api.dfy` (module `Api`) holds the record shapes of `api/*.ts` and the mutation
  intents. It also holds the effect a successful mutation is assumed to have on
  the list fetched after it: `POST` appends a record with a server-chosen id, and
  `DELETE /favourites/{id}` removes that record. The lemmas that check the buttons
  against the derived state use this effect.
- `wrappers.dfy` holds `Option`.

Behaviour of the code that a reader might not expect:

- The score counts every vote value other than 1 as −1, not only 0.
- `approved == 0` does not put the upload into a failed state. The mutation
  still succeeds (`Succeeded`), no error text is shown, and the only signal is
  the "Upload Failed" alert. Only a rejected request makes the mutation `Failed`
  (`RequestFailed`). That covers no answer, a request that could not be sent,
  and an answer with an error status, which the HTTP client raises as an error.
- JavaScript truthiness is kept. An empty-string selection counts as no
  selection: the upload is refused, and neither the preview nor the button
  appears. An empty error message shows "Unknown error".
- A successful upload does not navigate by itself. The success alert's OK
  button pushes `/`.

## Model

| member | source | states |
|---|---|---|
| `Home.AnyFavoriteFor` | app/index.tsx:49 | the `some` over favorites holds iff some record has the image id |
| `Home.IsFavorite` | app/index.tsx:47-52 | the heart is filled iff the favorites are loaded and one of them has the image id; never while they are absent or empty |
| `Home.FindFavorite` | app/index.tsx:56 | `find` returns nothing iff no record has the image id, and otherwise the record at the first position that has it |
| `Home.ToggleFavorite` | app/index.tsx:54-64 | the heart dispatches a delete exactly when the image is a favorite, by the id of its first favorite record; otherwise it dispatches a create for that image; never a vote |
| `Home.ToggleFlipsFavorite` | app/index.tsx:54-64 | on a list with unique record ids and one record per image, carrying out the toggle and refetching flips that image's heart and leaves every other image's heart as it was |
| `Home.VoteCat` | app/index.tsx:66-71 | `voteCat` dispatches a vote intent carrying the image id and the value unchanged; once recorded, exactly that vote is appended to the votes list |
| `Home.UpVote` | app/index.tsx:100-103 | the Up button dispatches a vote of value 1 for its card's image |
| `Home.DownVote` | app/index.tsx:107-110 | the Down button dispatches a vote of value 0 for its card's image |
| `Home.VotesFor` | app/index.tsx:77 | the filter keeps each vote for the image as many times as it occurs and drops every other vote |
| `Home.Tally` | app/index.tsx:78 | the `reduce` moves its starting total by one step per vote, so the result is within the number of votes of the start and has the same parity as that number |
| `Home.GetScore` | app/index.tsx:73-82 | the score is 0 while votes are absent, else the number of the image's votes with value 1 minus the number with any other value |
| `Home.TallyIsUpMinusOther` | app/index.tsx:76-78 | the `reduce` over the filtered votes equals up votes minus other votes |
| `Home.ScoreWithoutVotesIsZero` | app/index.tsx:76-78 | an image no vote refers to scores 0 |
| `Home.ScoreAfterAppend` | app/index.tsx:77-78 | appending a vote moves its own image's score by +1 (value 1) or −1 (any other value) and leaves other images' scores unchanged |
| `Home.ScoreIgnoresOtherImages` | app/index.tsx:77 | a vote for another image, wherever it stands in the list, does not change the score |
| `Home.CountsIgnoreOrder` | app/index.tsx:76-78 | the up and other counts of two lists holding the same votes in any order are equal |
| `Home.ScoreIgnoresOrder` | app/index.tsx:76-78 | the score is invariant under any permutation of the votes list |
| `Home.UpVoteRaisesScore` | app/index.tsx:100-103 | the Up button's vote, once recorded and refetched in any order, raises that image's score by exactly 1 and no other score |
| `Home.DownVoteLowersScore` | app/index.tsx:107-110 | the Down button's vote, once recorded and refetched in any order, lowers that image's score by exactly 1 and no other score |
| `Home.OneUpOneDownCancel` | app/index.tsx:47-82 | one favorite and one up and one down vote for an image: filled heart, score 0 |
| `Home.Cards` | app/index.tsx:85-119 | one card per image, in order, carrying its id, its url, its heart state and its score |
| `Home.FirstError` | app/index.tsx:134 | the error shown is the images error if present, else the favorites error if present, else the votes error; there is one iff any of the three is present |
| `Home.RenderHome` | app/index.tsx:121-159 | loading of any list wins; the error view appears iff nothing loads and some list failed, with the message of the first present error among images, favorites, votes; the grid appears iff nothing loads or failed and shows one card per image, in order, with its id, url, heart state and score |
| `Api.FavoritesAfter` | api/favorites.ts:28-59 | assumed effect of the favorite mutations on the refetched list: a create appends one record with a fresh id for the image and keeps the rest in place; a delete by id keeps exactly the records with other ids; a vote leaves the list unchanged |
| `Api.VotesAfter` | api/votes.ts:34-39 | assumed effect of the vote mutation on the refetched list: the new vote is appended after the unchanged old list, so it adds exactly one vote; favorite intents leave the list unchanged |
| `Api.WithoutFavorite` | api/favorites.ts:57-59 | after a delete by id, exactly the records with other ids remain |
| `Upload.PickedUri` | app/upload.tsx:46-48 | the picker yields a URI iff it was not canceled and returned at least one asset, and then it is the first asset's |
| `Upload.UploadRequest` | app/upload.tsx:51-63 | a request is built iff the selection is a non-empty string; it is the single `file` field with that URI, name `cat.jpg` and type `image/jpeg` |
| `Upload.ResponseAlert` | app/upload.tsx:66-77 | a nonzero `approved` raises the "Success" / "Image uploaded successfully!" alert whose OK goes to `/`; `approved == 0` raises the "Upload Failed" alert with no navigation |
| `Upload.ErrorText` | app/upload.tsx:85-89 | the error line appears iff the mutation failed, showing its message, or "Unknown error" when that is missing or empty |
| `Upload.RenderUpload` | app/upload.tsx:85-125 | the error line is present iff the mutation failed and reads as `ErrorText` gives it; preview and upload button appear iff an image is selected; the button is disabled and shows a spinner iff the upload is pending |
| `Upload.UploadButtonMeansRequest` | app/upload.tsx:108-113 | the upload button is shown exactly when pressing it would submit a request |
| `Upload.UploadScreen.constructor` | app/upload.tsx:22-24 | the screen starts with no selection, an idle mutation, no alert and nothing submitted |
| `Upload.UploadScreen.Pick` | app/upload.tsx:26-49 | without permission the permission alert is raised, the picker is not opened and the selection is kept; with it the picker is opened and the selection becomes the first asset's URI, or stays when canceled or empty |
| `Upload.UploadScreen.Upload` | app/upload.tsx:51-79 | with no selection the "No Image Selected" alert is raised and nothing is submitted; otherwise the fixed `file` field is submitted and the mutation is pending; every submitted field is well formed |
| `Upload.UploadScreen.Settle` | app/upload.tsx:65-78 | a successful answer makes the pending mutation succeed and raises the alert `ResponseAlert` picks; a rejected request (no answer, or an error status) makes it fail with the error's message; nothing changes when no upload is pending |
| `Upload.UploadScreen.PressAlertOk` | app/upload.tsx:68-73 | OK on the success alert pushes `/`; the invariant keeps every pushed route `/` and only after some answer approved the image |

## Left out

- `api/Client.ts`: the HTTP client's base URL and API-key header are configuration with no logic.
- The React Query hooks in `api/*.ts`: caching, deduplication of in-flight requests and cache invalidation after a mutation belong to the library. The model assumes the refetched list reflects the mutation (`Api.FavoritesAfter`, `Api.VotesAfter`). For votes it allows any order.
- The `onError` handlers in `api/*.ts` build alerts from the dynamic shape of an axios error and log to the console. The "Upload Failed" alert raised by the upload hook's own `onError` is therefore not in `UploadScreen.alert`. The mutation's `Failed` status and the screen's error line are modelled.
- Asynchrony: several pending uploads at once, callbacks that arrive after the screen is gone, and the memoisation of `useCallback`, including its dependency lists. `Settle` takes one outcome for the current pending upload and ignores an outcome when nothing is pending.
- Vote values and `approved` are integers. JavaScript numbers that are not integers, such as `NaN`, are not modelled.
- Layout: style sheets, the `Dimensions` arithmetic, `FlatList` tuning, icons, and the home screen's button to the upload screen.
- The device picker's options (media type, editing, quality), the permission prompt and the router are foreign code. They appear only as method inputs and recorded outputs.
