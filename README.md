# Social-posting service: token gate, listing filter and post-creation saga

A Dafny model of the logic in `Service/api/api.js`, the HTTP handlers of a
social-posting backend (users, posts, images in an S3 bucket). The model
covers the three parts of that file that hold their own logic:

- **The authentication-token store and gate** (`createAuthToken`,
  `verifyAuthToken`). A global map goes from token id to issue time.
  `AuthTokens.TokenStore` is a class with that map as a field. `Issue`
  records a fresh id. `Verify` answers `NoToken`, `Invalid` (and evicts the
  token) or `Admit` (and changes nothing). The store's behaviour over a
  sequence of requests is given by the functions `Step` and `Run`, which the
  methods' postconditions name. The lemmas about `Run` prove the following:
  an evicted token is never admitted again, timestamps are never renewed, and
  a token is admitted exactly while `now - issued <= ttl`.
- **The listing filter of `getUserPosts`** (`UserPosts.BuildQuery`). This is
  a pure function. It takes the request's `filter` as a JSON value
  (`JsValue.Value`, with JavaScript truthiness) and returns either a
  rejection or a query. The query holds an optional `$all` tag constraint,
  the equality fields that are passed through, and the cap of 100 results.
  `UserPosts.Matches` gives the query a meaning over post documents. The
  empty-body guard of `createUserPost` is modelled as well
  (`UserPosts.CreateUserPostGuard`).
- **The post-creation saga of `createPost`**. `ObjectStore.Bucket` is the
  object store: its stored objects and a log of the calls made to it. The
  store's answers come in as an `Environment`: the key each upload mints or
  its failure, and whether a delete succeeds. `PostCreation.CreatePost` is
  the handler as evidently intended, proved against the function
  `PostCreation.Saga`. `PostCreation.CreatePostAsWritten` is the handler as
  the source has it. The lemmas compare the two (see "Findings").

Clock readings (`Date.now()`) and minted ids (`uuidv4()`) are parameters.
The model takes staleness to be `now - issued > ttl`, where `ttl` is a
constructor parameter of the store. It takes stale-token removal to remove
the one presented key. Both are assumptions: `Service/utils/utils.js`, which
holds `UTILS.isAuthTokenStale` and `UTILS.removeStaleTokens`, is not part of
this model, and neither are the S3 module or the database schema.

Points where the model follows the code's exact behaviour:
- The gate treats an empty `token` header like a missing one, and a stored
  timestamp of `0` like an unknown token. Both are JavaScript falsiness.
- The code answers the same 500 whether or not the compensating delete
  succeeds. The model keeps that reply and records the delete's success in
  `PictureUploadFailed(avatarKey, avatarRemoved)`.
- The code has no revoke operation, so the model has none.

## Model

| member | source | states |
|---|---|---|
| `AuthTokens.TokenStore.Issue` | Service/api/api.js:21-28 | the fresh id is added with the issue time, every other entry is unchanged, and the reply carries that same id and time |
| `AuthTokens.TokenStore.Verify` | Service/api/api.js:30-49 | the verdict is the gate's decision on the old map; on `Invalid` exactly the presented token is removed; on `NoToken` and `Admit` the map is unchanged |
| `AuthTokens.Rejection` | Service/api/api.js:34-47 | only an admitted request gets no reply from the gate; both kinds of rejection are 401 |
| `AuthTokens.MissingHeaderRejected` | Service/api/api.js:35-38 | an absent or empty header gets 401 'No Authentication Token Provided' whatever the map holds, and the map is unchanged |
| `AuthTokens.AdmitIff` | Service/api/api.js:40-48 | a present header is admitted iff its token is stored with a non-zero timestamp and `now - issued <= ttl` |
| `AuthTokens.RejectedTokenEvicted` | Service/api/api.js:40-47 | a rejected token is removed, every other entry is kept, and a later check at any time rejects it |
| `AuthTokens.NoRenewal` | Service/api/api.js:21-48 | over any run of requests that does not re-issue a token, that token is never added and its timestamp never changes |
| `AuthTokens.EvictionIsPermanent` | Service/api/api.js:43-47 | after eviction, no later run of requests without a re-issue leads to the token being admitted |
| `AuthTokens.StaysLive` | Service/api/api.js:40-48 | a token that is live at `now` stays stored, with its timestamp unchanged, through any run of earlier requests |
| `AuthTokens.AdmittedIffWithinTtl` | Service/api/api.js:21-48 | a token issued at `at` is admitted at `now`, after any run of requests no later than `now`, iff `now - at <= ttl` |
| `AuthTokens.ExpiryScenario` | Service/api/api.js:21-48 | issued at `t`: admitted at `t+ttl-1`; rejected at `t+ttl+1`; still rejected at `t+ttl+2` |
| `JsValue.PositiveLengthIsTruthy` | Service/api/api.js:185-196 | a `tags` value with a positive length is truthy, so the `$all` branch always also drops `tags` from the pass-through |
| `UserPosts.BuildQuery` | Service/api/api.js:173-205 | rejection iff a truthy filter has neither a truthy `tags` nor a truthy `title`; every query has limit 100; a `$all` constraint is present iff the filter's `tags` has a positive length, and its operand is that `tags` value; a `$all` constraint excludes a `tags` equality field; every equality field is copied from the filter |
| `UserPosts.AbsentFilterMatchesAll` | Service/api/api.js:174-177 | no filter (or a falsy one) gives the match-all query, which every document satisfies, capped at 100 |
| `UserPosts.FilterNeedsTagsOrTitle` | Service/api/api.js:177-180 | an object filter is accepted iff its `tags` or its `title` is truthy |
| `UserPosts.ListingReply` | Service/api/api.js:202-205 | a rejected filter, and only a rejected one, gets a 400 reply before any query is run |
| `UserPosts.EmptyFilterObjectRejected` | Service/api/api.js:177-205 | `{}` and `{other: v}` are rejected with 400 'Invalid search filters filters provided' |
| `UserPosts.NonEmptyTagsBecomeAll` | Service/api/api.js:184-193 | a non-empty `tags` list becomes `$all` and the rest of the filter passes through without `tags` |
| `UserPosts.EmptyTagsDropped` | Service/api/api.js:194-196 | `tags: []` passes the check and is dropped, with no tag constraint |
| `UserPosts.EmptyTagListMatchesAll` | Service/api/api.js:175-198 | `{tags: []}` alone gives the match-all query, while `{}` is rejected |
| `UserPosts.OtherKeysPassThrough` | Service/api/api.js:198 | on an accepted filter, the equality fields are exactly the filter's keys less a truthy `tags`, each with its value unchanged (`title` included) |
| `UserPosts.TitleOnlyFilter` | Service/api/api.js:177-198 | `{title: v}` with a truthy `v` gives the query with `title` equal to `v` and no tag constraint, which matches exactly the posts with that title |
| `UserPosts.TagFilterSelectsSupersets` | Service/api/api.js:185-189 | the query for `{tags: ts}` selects exactly the posts whose tags include every tag of `ts` |
| `UserPosts.CreateUserPostGuard` | Service/api/api.js:56-61 | a missing body is rejected with 400 'No Request Body Provided'; an object body is rejected iff it has no keys |
| `ObjectStore.Bucket.Upload` | Service/api/api.js:412-420 | a successful upload stores the data under the minted key; a failed one stores nothing; either way one upload call is logged |
| `ObjectStore.Bucket.Delete` | Service/api/api.js:424-429 | a successful delete removes the key; a failed one leaves the objects alone; one delete call is logged |
| `PostCreation.CreatePost` | Service/api/api.js:403-442 | the result, the objects afterwards and the calls made are those of the saga: check the files, upload the avatar, upload the picture, delete the avatar if the picture fails |
| `PostCreation.UrlRoundTrip` | Service/api/api.js:434-435 | the key can be read back from `BUCKET_URL + key` |
| `PostCreation.UrlInjective` | Service/api/api.js:434-435 | distinct keys give distinct URLs |
| `PostCreation.MissingImagesMakesNoCalls` | Service/api/api.js:404-407 | 'Missing Images' (400) iff there are no files or fewer than two; then no store call is made and nothing is stored |
| `PostCreation.AvatarFailureStops` | Service/api/api.js:412-416 | a failed avatar upload gives 500 after exactly one upload call; the picture upload is never attempted |
| `PostCreation.CompensationRemovesAvatar` | Service/api/api.js:420-430 | a failed picture upload is followed by a delete of the avatar's key and a 500; when the delete succeeds the store is as before |
| `PostCreation.UploadedKeysResolve` | Service/api/api.js:418-435 | on success each key resolves to its own image and the two URLs differ |
| `PostCreation.NoUntrackedAssets` | Service/api/api.js:403-442 | whatever the store answers, existing objects are untouched; the only new objects are the ones the result references, or the avatar whose delete failed, which the result reports |
| `PostCreation.CreatePostAsWritten` | Service/api/api.js:403-442 | as written: 400 'Missing Images' iff there are fewer than two files; 500 iff the avatar upload fails; `Threw` iff the picture upload fails, with the avatar still stored and no delete call made; otherwise `Unanswered`, with both URLs naming the avatar |
| `PostCreation.AsWrittenAgreesOnEarlyExits` | Service/api/api.js:403-416 | as written, the missing-images and avatar-failure paths reply and act exactly as intended |
| `PostCreation.AsWrittenOrphansAvatar` | Service/api/api.js:421-430 | as written, a failed picture upload throws before any delete; the avatar stays stored and the handler sends no 500 of its own |
| `PostCreation.AsWrittenOrphansAvatarExample` | Service/api/api.js:421-430 | with an empty bucket, two files and a failed picture upload, as written the bucket keeps the avatar; as intended it ends empty |
| `PostCreation.AsWrittenPictureUrlNamesAvatar` | Service/api/api.js:432-435 | as written, the picture URL names the avatar's object and never the picture's |
| `PostCreation.AsWrittenSuccessUnanswered` | Service/api/api.js:432-441 | as written, a fully successful run sends no reply; as intended, the result hands on both keys |

## Left out

- `AuthTokens.TokenStore.Verify`: the bodies of `UTILS.isAuthTokenStale` and `UTILS.removeStaleTokens` are not part of this model. Staleness as `now - issued > ttl` is an assumption. So is removing only the presented key: the plural name may mean the function removes every stale entry. Under such a sweep, the lemmas about `Run` still hold for the presented token, but `Verify`'s statement that exactly the presented token is removed would not.
- The single-resource handlers (`updateUserPost`, `deleteUserPost`, `getUserPost`, `createUser`, `deleteUser`, `getUser`) and the image handlers (`createImage`, `getImage`, `getImageUrl`, `deleteImage`) are not modelled. They only pick status codes around database and S3 calls.
- `version` is not modelled: it only reads an environment variable.
- `deletePost` is not modelled. It depends on `UTILS.getPost` and `UTILS.getUser`, which are not part of this model, and it never deletes anything. Its checks `post === []` and `user === []` (Service/api/api.js:379, 393) compare against a fresh array by identity. They are always false, so their 404 branches cannot be reached.
- Routing (Service/routes/routes.js) is not modelled. Every route except `/auth` passes through the gate, and `/post` accepts at most two files. A handler's thrown error goes to Express's error handler through the route wrapper (Service/routes/routes.js:18-20). That error handler is not part of this model, so `Written.Threw` does not say which reply it sends.
- Requests are modelled as sequential steps. Concurrency and promise/callback asynchrony are not modelled.
- The database query of `getUserPosts` and its 200/500 replies are not modelled. `UserPosts.Matches` is a simplified reading of the document store's matching. Equality is structural (an array field does not match one of its elements), and an `$all` operand that is not an array matches nothing.
- `UserPosts.BuildQuery`: the handler deletes `tags` from the request's own filter object. That mutation of the request is not modelled, because nothing reads the request afterwards.
- `JsValue.HasPositiveLength`: a string's length is counted in characters, not UTF-16 units. An object's `length` property is compared with 0 only when it is a number; JavaScript's coercion of other values is not modelled.
- `UserPosts.BadFilterReply`: the handler sends the rejection as a bare string (Service/api/api.js:204). Every other reply modelled sends an object `{ message }`. `Common.Reply` does not tell the two shapes apart, so the model does not capture that a client reading `.message` gets `undefined` for this reply only.
- `PostCreation.Environment`: an upload failure is modelled only as `UTILS.createImage` resolving to a falsy value, which is what Service/api/api.js:306 and 414 expect. A rejected `createImage` promise is not modelled. It would skip the handler's own 500 and go through the route wrapper to Express's error handler (Service/routes/routes.js:18-20).
- `JsValue.Value` numbers are integers. Fractions and `NaN` are not modelled.
- `getUserPosts` reads `req.body.filter`. The model takes that filter value directly, so a request with no body at all is not modelled.
- The user and post creation steps of `createPost` are empty in the source (Service/api/api.js:437-439). The intended handler therefore ends with `Uploaded(avatarKey, pictureKey)` and sends no reply, and it makes no document-store call that could need both uploads compensated.
- `createUserPost` past its body guard (building and saving the document) is not modelled, because it is a database call.
- The log messages are not modelled.

## Findings

| source | as written | input that shows it | evidently intended | confidence | as-written member | corrected member |
|---|---|---|---|---|---|---|
| Service/api/api.js:422-430 | the compensating call `deleteFile(avatarId)` names a variable declared nowhere, so it throws before the store is called; the branch also has no `return` after it | two files; the avatar upload mints key `a`; the picture upload fails | delete `a`, answer 500, and stop | not executed; high | `PostCreation.AsWrittenOrphansAvatar` | `PostCreation.CompensationRemovesAvatar` |
| Service/api/api.js:432 | `pictureKey` is taken from the avatar's upload result | both uploads succeed, with keys `a` and `p`, `a != p` | the picture URL is `BUCKET_URL + p` | not executed; high | `PostCreation.AsWrittenPictureUrlNamesAvatar` | `PostCreation.UploadedKeysResolve` |
| Service/api/api.js:432-441 | after both uploads succeed the callback returns without replying and without referencing either object | both uploads succeed | hand both keys on to the user and post creation and reply | not executed; medium | `PostCreation.AsWrittenSuccessUnanswered` | `PostCreation.NoUntrackedAssets` |
