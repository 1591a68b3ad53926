/**
  `createPost`: upload the avatar image, then the post picture, and delete
  the avatar again if the picture upload fails. `CreatePost` is the
  handler as evidently intended; `CreatePostAsWritten` is the handler as
  the source has it, and the lemmas at the end set the two side by side.
 */
module PostCreation {
  import opened Common
  import opened ObjectStore

  const BucketUrl: string := "https://senior-design-img-bucket.s3.amazonaws.com/"

  /** An uploaded multipart file; only its contents matter here. */
  datatype File = File(data: Bytes)

  /**
    The object store's answers for one request: the key minted by the
    avatar upload and by the picture upload (`None` when it fails), and
    whether the compensating delete succeeds.
   */
  datatype Environment = Environment(avatarKey: Option<string>, pictureKey: Option<string>, deleteSucceeds: bool)

  /** The result of the intended handler. */
  datatype Outcome =
    | MissingImages
    | AvatarUploadFailed
    | PictureUploadFailed(avatarKey: string, avatarRemoved: bool)
    | Uploaded(avatarKey: string, pictureKey: string)

  /** Everything one run does: its result, the objects afterwards, and the calls it made. */
  datatype Effect = Effect(outcome: Outcome, objects: map<string, Bytes>, calls: seq<Call>)

  /** The public URL of a stored object. */
  function Url(key: string): string
  {
    BucketUrl + key
  }

  /** The key a bucket URL names. */
  function KeyOf(url: string): string
    requires |url| >= |BucketUrl|
  {
    url[|BucketUrl|..]
  }

  /** `req.files` holds at least two files. */
  predicate EnoughFiles(files: Option<seq<File>>)
  {
    files.Some? && |files.value| >= 2
  }

  /** The keys the store mints are new, and the two differ. */
  predicate FreshKeys(objects: map<string, Bytes>, env: Environment)
  {
    && (env.avatarKey.Some? ==> env.avatarKey.value !in objects)
    && (env.pictureKey.Some? ==> env.pictureKey.value !in objects)
    && (env.avatarKey.Some? && env.pictureKey.Some? ==> env.avatarKey.value != env.pictureKey.value)
  }

  /** The reply the handler sends; an upload that fully succeeds gets none, as the source stops there. */
  function ReplyFor(o: Outcome): Option<Reply>
  {
    match o
    case MissingImages => Some(Reply(400, "Missing Images"))
    case AvatarUploadFailed => Some(Reply(500, InternalErrorMessage))
    case PictureUploadFailed(_, _) => Some(Reply(500, InternalErrorMessage))
    case Uploaded(_, _) => None
  }

  /** The objects a run leaves behind on purpose (referenced), or reports as left behind (a failed compensation). */
  function Retained(o: Outcome): set<string>
  {
    match o
    case Uploaded(ak, pk) => {ak, pk}
    case PictureUploadFailed(ak, removed) => if removed then {} else {ak}
    case _ => {}
  }

  /** The intended handler, step by step, as a function of the store and the store's answers. */
  function Saga(objects: map<string, Bytes>, files: Option<seq<File>>, env: Environment): Effect
  {
    if !EnoughFiles(files) then Effect(MissingImages, objects, [])
    else
      var avatar := files.value[0].data;
      var picture := files.value[1].data;
      match env.avatarKey
      case None => Effect(AvatarUploadFailed, objects, [Put(avatar)])
      case Some(ak) =>
        var withAvatar := objects[ak := avatar];
        match env.pictureKey
        case None =>
          Effect(PictureUploadFailed(ak, env.deleteSucceeds),
                 if env.deleteSucceeds then withAvatar - {ak} else withAvatar,
                 [Put(avatar), Put(picture), Remove(ak)])
        case Some(pk) =>
          Effect(Uploaded(ak, pk), withAvatar[pk := picture], [Put(avatar), Put(picture)])
  }

  /** `createPost` as intended: the avatar is deleted again when the picture upload fails. */
  method CreatePost(bucket: Bucket, files: Option<seq<File>>, env: Environment) returns (o: Outcome)
    requires FreshKeys(bucket.objects, env)
    modifies bucket
    ensures o == Saga(old(bucket.objects), files, env).outcome
    ensures bucket.objects == Saga(old(bucket.objects), files, env).objects
    ensures bucket.calls == old(bucket.calls) + Saga(old(bucket.objects), files, env).calls
  {
    if files.None? || |files.value| < 2 {
      return MissingImages;
    }
    var avatar := files.value[0];
    var picture := files.value[1];
    var avatarKey := bucket.Upload(avatar.data, env.avatarKey);
    if avatarKey.None? {
      return AvatarUploadFailed;
    }
    var pictureKey := bucket.Upload(picture.data, env.pictureKey);
    if pictureKey.None? {
      var removed := bucket.Delete(avatarKey.value, env.deleteSucceeds);
      return PictureUploadFailed(avatarKey.value, removed);
    }
    o := Uploaded(avatarKey.value, pictureKey.value);
  }

  /** A URL gives back the key it was formed from, so distinct keys have distinct URLs. */
  lemma UrlRoundTrip(key: string)
    ensures |Url(key)| >= |BucketUrl| && KeyOf(Url(key)) == key
  {
  }

  /** Distinct keys have distinct URLs. */
  lemma UrlInjective(k1: string, k2: string)
    requires k1 != k2
    ensures Url(k1) != Url(k2)
  {
    UrlRoundTrip(k1);
    UrlRoundTrip(k2);
  }

  /** Fewer than two files: 400 'Missing Images', no call to the store, nothing stored. */
  lemma MissingImagesMakesNoCalls(objects: map<string, Bytes>, files: Option<seq<File>>, env: Environment)
    ensures Saga(objects, files, env).outcome == MissingImages <==> !EnoughFiles(files)
    ensures !EnoughFiles(files) ==>
              && Saga(objects, files, env).calls == []
              && Saga(objects, files, env).objects == objects
              && ReplyFor(MissingImages) == Some(Reply(400, "Missing Images"))
  {
  }

  /** A failed avatar upload ends the run with a 500: one upload call, no picture upload, nothing stored. */
  lemma AvatarFailureStops(objects: map<string, Bytes>, files: Option<seq<File>>, env: Environment)
    requires EnoughFiles(files) && env.avatarKey.None?
    ensures var e := Saga(objects, files, env);
      && e.outcome == AvatarUploadFailed
      && ReplyFor(e.outcome) == Some(Reply(500, InternalErrorMessage))
      && e.calls == [Put(files.value[0].data)]
      && e.objects == objects
  {
  }

  /**
    A failed picture upload triggers a delete of the avatar's key; when
    the delete succeeds the store is as it was before the request.
   */
  lemma CompensationRemovesAvatar(objects: map<string, Bytes>, files: Option<seq<File>>, env: Environment)
    requires FreshKeys(objects, env)
    requires EnoughFiles(files) && env.avatarKey.Some? && env.pictureKey.None?
    ensures var e := Saga(objects, files, env);
      && e.outcome == PictureUploadFailed(env.avatarKey.value, env.deleteSucceeds)
      && ReplyFor(e.outcome) == Some(Reply(500, InternalErrorMessage))
      && e.calls == [Put(files.value[0].data), Put(files.value[1].data), Remove(env.avatarKey.value)]
      && (env.deleteSucceeds ==> e.objects == objects)
  {
    var ak := env.avatarKey.value;
    if env.deleteSucceeds {
      assert objects[ak := files.value[0].data] - {ak} == objects;
    }
  }

  /** On success both keys resolve, each to its own image, and the two URLs differ. */
  lemma UploadedKeysResolve(objects: map<string, Bytes>, files: Option<seq<File>>, env: Environment)
    requires FreshKeys(objects, env)
    requires Saga(objects, files, env).outcome.Uploaded?
    ensures var e := Saga(objects, files, env);
      && e.outcome.avatarKey in e.objects && e.objects[e.outcome.avatarKey] == files.value[0].data
      && e.outcome.pictureKey in e.objects && e.objects[e.outcome.pictureKey] == files.value[1].data
      && Url(e.outcome.avatarKey) != Url(e.outcome.pictureKey)
  {
    var e := Saga(objects, files, env);
    UrlInjective(e.outcome.avatarKey, e.outcome.pictureKey);
  }

  /**
    No orphaned assets: whatever the store answers, the objects stored
    before are untouched, and the only new objects are the ones the
    result references, or the avatar whose compensating delete failed
    (which the result reports).
   */
  lemma NoUntrackedAssets(objects: map<string, Bytes>, files: Option<seq<File>>, env: Environment)
    requires FreshKeys(objects, env)
    ensures var e := Saga(objects, files, env);
      && e.objects.Keys == objects.Keys + Retained(e.outcome)
      && (forall k :: k in objects ==> k in e.objects && e.objects[k] == objects[k])
  {
    var e := Saga(objects, files, env);
    if EnoughFiles(files) && env.avatarKey.Some? && env.pictureKey.None? && env.deleteSucceeds {
      CompensationRemovesAvatar(objects, files, env);
    }
  }

  // ---------------------------------------------------------------------
  // The handler as written.

  /** The result of the handler as written. */
  datatype Written =
    | Sent(reply: Reply)
      /** The callback threw; the route wrapper hands the error to the global error handler. */
    | Threw
      /** The callback returned without replying; it had formed these two URLs. */
    | Unanswered(avatarUrl: string, pictureUrl: string)

  datatype WrittenEffect = WrittenEffect(result: Written, objects: map<string, Bytes>, calls: seq<Call>)

  /**
    `createPost` as the source has it: on a failed picture upload the call
    `deleteFile(avatarId)` names an undeclared variable and throws before
    the store is called; on success the picture URL is formed from the
    avatar's key and no reply is sent.
   */
  function CreatePostAsWritten(objects: map<string, Bytes>, files: Option<seq<File>>, env: Environment): (w: WrittenEffect)
    ensures w.result == Sent(Reply(400, "Missing Images")) <==> !EnoughFiles(files)
    ensures w.result == Sent(Reply(500, InternalErrorMessage)) <==> EnoughFiles(files) && env.avatarKey.None?
    ensures w.result.Threw? <==> EnoughFiles(files) && env.avatarKey.Some? && env.pictureKey.None?
    ensures w.result.Threw? ==> env.avatarKey.value in w.objects && forall c :: c in w.calls ==> c.Put?
    ensures w.result.Unanswered? ==> w.result.pictureUrl == w.result.avatarUrl == Url(env.avatarKey.value)
  {
    if !EnoughFiles(files) then WrittenEffect(Sent(Reply(400, "Missing Images")), objects, [])
    else
      var avatar := files.value[0].data;
      var picture := files.value[1].data;
      match env.avatarKey
      case None => WrittenEffect(Sent(Reply(500, InternalErrorMessage)), objects, [Put(avatar)])
      case Some(ak) =>
        var withAvatar := objects[ak := avatar];
        match env.pictureKey
        case None => WrittenEffect(Threw, withAvatar, [Put(avatar), Put(picture)])
        case Some(pk) => WrittenEffect(Unanswered(Url(ak), Url(ak)), withAvatar[pk := picture], [Put(avatar), Put(picture)])
  }

  /** On the paths that reply, the written handler and the intended one agree. */
  lemma AsWrittenAgreesOnEarlyExits(objects: map<string, Bytes>, files: Option<seq<File>>, env: Environment)
    requires !EnoughFiles(files) || env.avatarKey.None?
    ensures var w := CreatePostAsWritten(objects, files, env);
      var e := Saga(objects, files, env);
      && w.result == Sent(ReplyFor(e.outcome).value)
      && w.objects == e.objects && w.calls == e.calls
  {
  }

  /**
    As written, a failed picture upload never deletes the avatar: its key
    stays stored and the handler throws instead of answering 500, where the
    intended handler deletes it and answers 500.
   */
  lemma AsWrittenOrphansAvatar(objects: map<string, Bytes>, files: Option<seq<File>>, env: Environment)
    requires FreshKeys(objects, env)
    requires EnoughFiles(files) && env.avatarKey.Some? && env.pictureKey.None? && env.deleteSucceeds
    ensures var w := CreatePostAsWritten(objects, files, env);
      && w.result == Threw
      && env.avatarKey.value in w.objects && env.avatarKey.value !in objects
      && Remove(env.avatarKey.value) !in w.calls
      && env.avatarKey.value !in Saga(objects, files, env).objects
  {
    CompensationRemovesAvatar(objects, files, env);
  }

  /** The smallest such input: an empty bucket, two one-byte files, the picture upload failing. */
  lemma AsWrittenOrphansAvatarExample()
    ensures CreatePostAsWritten(map[], Some([File([1]), File([2])]), Environment(Some("a"), None, true)).objects == map["a" := [1]]
    ensures Saga(map[], Some([File([1]), File([2])]), Environment(Some("a"), None, true)).objects == map[]
  {
    var env := Environment(Some("a"), None, true);
    AsWrittenOrphansAvatar(map[], Some([File([1]), File([2])]), env);
  }

  /**
    As written, when both uploads succeed the picture URL names the
    avatar's object, never the picture's; the handler then sends no reply.
   */
  lemma AsWrittenPictureUrlNamesAvatar(objects: map<string, Bytes>, files: Option<seq<File>>, env: Environment)
    requires FreshKeys(objects, env)
    requires EnoughFiles(files) && env.avatarKey.Some? && env.pictureKey.Some?
    ensures var w := CreatePostAsWritten(objects, files, env);
      && w.result.Unanswered?
      && w.result.pictureUrl == Url(env.avatarKey.value)
      && w.result.pictureUrl != Url(env.pictureKey.value)
      && w.objects[KeyOf(w.result.pictureUrl)] == files.value[0].data
  {
    UrlInjective(env.avatarKey.value, env.pictureKey.value);
    UrlRoundTrip(env.avatarKey.value);
  }

  /**
    As written, a fully successful run leaves both new objects referenced
    by nothing the handler returns, while the intended run hands both keys on.
   */
  lemma AsWrittenSuccessUnanswered(objects: map<string, Bytes>, files: Option<seq<File>>, env: Environment)
    requires FreshKeys(objects, env)
    requires EnoughFiles(files) && env.avatarKey.Some? && env.pictureKey.Some?
    ensures CreatePostAsWritten(objects, files, env).result.Unanswered?
    ensures Saga(objects, files, env).outcome == Uploaded(env.avatarKey.value, env.pictureKey.value)
    ensures Retained(Saga(objects, files, env).outcome) == {env.avatarKey.value, env.pictureKey.value}
  {
  }
}
