/**
  The user-post handlers' own logic: the search filter that `getUserPosts`
  builds from the request's `filter`, and the empty-body guard of
  `createUserPost`.
 */
module UserPosts {
  import opened Common
  import opened JsValue

  /** The cap on the number of documents a listing returns. */
  const ResultLimit: nat := 100

  /**
    A query for the post collection: an optional `$all` constraint on
    `tags`, equality fields, and the result cap.
   */
  datatype Query = Query(allTags: Option<Value>, equal: map<string, Value>, limit: nat)

  /** What the handler does with a request: reject the filter, or run a query. */
  datatype Listing = BadFilter | Find(query: Query)

  /** The query that matches every post. */
  const MatchAll: Query := Query(None, map[], ResultLimit)

  /** A filter was supplied and is truthy. */
  predicate Supplied(filter: Option<Value>)
  {
    filter.Some? && Truthy(filter.value)
  }

  /** The search filter of `getUserPosts` for the request body's `filter` property. */
  function BuildQuery(filter: Option<Value>): (r: Listing)
    ensures r.BadFilter? <==>
              Supplied(filter) && !TruthyProperty(filter.value, "tags") && !TruthyProperty(filter.value, "title")
    ensures r.Find? ==> r.query.limit == ResultLimit
    ensures r.Find? && r.query.allTags.Some? ==> "tags" !in r.query.equal
    ensures r.Find? ==> forall k :: k in r.query.equal ==>
              filter.Some? && Property(filter.value, k) == Some(r.query.equal[k])
    ensures r.Find? && Supplied(filter) ==>
              && (r.query.allTags.Some? <==> HasPositiveLength(Property(filter.value, "tags")))
              && (r.query.allTags.Some? ==> r.query.allTags == Property(filter.value, "tags"))
  {
    if !Supplied(filter) then Find(MatchAll)
    else
      var f := filter.value;
      if !TruthyProperty(f, "tags") && !TruthyProperty(f, "title") then BadFilter
      else
        var tags := Property(f, "tags");
        var allTags := if HasPositiveLength(tags) then tags else None;
        var rest := if TruthyProperty(f, "tags") then f.fields - {"tags"} else f.fields;
        Find(Query(allTags, rest, ResultLimit))
  }

  /** The reply to a rejected filter. */
  const BadFilterReply: Reply := Reply(400, "Invalid search filters filters provided")

  /** The reply the handler sends before querying; `None` means the query is run. */
  function ListingReply(l: Listing): (r: Option<Reply>)
    ensures r.None? <==> l.Find?
    ensures r.Some? ==> r.value.status == 400
  {
    match l
    case BadFilter => Some(BadFilterReply)
    case Find(_) => None
  }

  /** Every tag of `want` occurs in the post's `tags` array. */
  predicate HasAllTags(doc: map<string, Value>, want: seq<Value>)
  {
    "tags" in doc && doc["tags"].Arr? && forall t :: t in want ==> t in doc["tags"].items
  }

  /**
    A post document satisfies a query: it holds every tag of the `$all`
    list and has each equality field. An `$all` operand that is not an
    array matches nothing.
   */
  predicate Matches(doc: map<string, Value>, q: Query)
  {
    && (q.allTags.Some? ==> q.allTags.value.Arr? && HasAllTags(doc, q.allTags.value.items))
    && (forall k :: k in q.equal ==> k in doc && doc[k] == q.equal[k])
  }

  /** No filter, or a falsy one, means every post (up to the cap). */
  lemma AbsentFilterMatchesAll(filter: Option<Value>, doc: map<string, Value>)
    requires !Supplied(filter)
    ensures BuildQuery(filter) == Find(MatchAll)
    ensures Matches(doc, MatchAll) && MatchAll.limit == 100
  {
  }

  /** A supplied object filter is accepted exactly when it has a truthy `tags` or a truthy `title`. */
  lemma FilterNeedsTagsOrTitle(fields: map<string, Value>)
    ensures BuildQuery(Some(Obj(fields))).Find? <==>
              ("tags" in fields && Truthy(fields["tags"])) || ("title" in fields && Truthy(fields["title"]))
  {
  }

  /** `{}` is rejected, and so is a filter holding only other keys. */
  lemma EmptyFilterObjectRejected(other: Value)
    ensures BuildQuery(Some(Obj(map[]))) == BadFilter
    ensures BuildQuery(Some(Obj(map["other" := other]))) == BadFilter
    ensures ListingReply(BuildQuery(Some(Obj(map[])))) == Some(Reply(400, "Invalid search filters filters provided"))
    ensures ListingReply(BuildQuery(Some(Obj(map["other" := other])))) == Some(Reply(400, "Invalid search filters filters provided"))
  {
    assert Property(Obj(map["other" := other]), "tags") == None;
    assert Property(Obj(map["other" := other]), "title") == None;
  }

  /** A non-empty `tags` list becomes the `$all` constraint and leaves the pass-through fields. */
  lemma NonEmptyTagsBecomeAll(fields: map<string, Value>, tags: seq<Value>)
    requires "tags" in fields && fields["tags"] == Arr(tags) && |tags| > 0
    ensures BuildQuery(Some(Obj(fields))) == Find(Query(Some(Arr(tags)), fields - {"tags"}, ResultLimit))
  {
  }

  /** An empty `tags` list is truthy, so it passes the check, and is then dropped. */
  lemma EmptyTagsDropped(fields: map<string, Value>)
    requires "tags" in fields && fields["tags"] == Arr([])
    ensures BuildQuery(Some(Obj(fields))) == Find(Query(None, fields - {"tags"}, ResultLimit))
  {
  }

  /** Hence `{tags: []}` alone lists every post, while `{}` is rejected. */
  lemma EmptyTagListMatchesAll()
    ensures BuildQuery(Some(Obj(map["tags" := Arr([])]))) == Find(MatchAll)
    ensures BuildQuery(Some(Obj(map[]))) == BadFilter
  {
    var fields := map["tags" := Arr([])];
    EmptyTagsDropped(fields);
    assert fields - {"tags"} == map[];
  }

  /**
    On an accepted object filter, every key except a truthy `tags` is
    copied unchanged as an equality field, `title` included; a falsy
    `tags` is one of them.
   */
  lemma OtherKeysPassThrough(fields: map<string, Value>)
    requires BuildQuery(Some(Obj(fields))).Find?
    ensures var q := BuildQuery(Some(Obj(fields))).query;
      && q.equal.Keys == (if "tags" in fields && Truthy(fields["tags"]) then fields.Keys - {"tags"} else fields.Keys)
      && (forall k :: k in q.equal ==> q.equal[k] == fields[k])
  {
  }

  /** `{title: v}` alone asks for that title and nothing else: no tag constraint is added. */
  lemma TitleOnlyFilter(v: Value, doc: map<string, Value>)
    requires Truthy(v)
    ensures BuildQuery(Some(Obj(map["title" := v]))) == Find(Query(None, map["title" := v], ResultLimit))
    ensures Matches(doc, BuildQuery(Some(Obj(map["title" := v]))).query) <==> "title" in doc && doc["title"] == v
  {
  }

  /** The query for `{tags: [..]}` selects exactly the posts whose tags include every listed tag. */
  lemma TagFilterSelectsSupersets(tags: seq<Value>, doc: map<string, Value>)
    requires |tags| > 0
    ensures BuildQuery(Some(Obj(map["tags" := Arr(tags)]))).Find?
    ensures Matches(doc, BuildQuery(Some(Obj(map["tags" := Arr(tags)]))).query) <==> HasAllTags(doc, tags)
  {
    var fields := map["tags" := Arr(tags)];
    NonEmptyTagsBecomeAll(fields, tags);
    assert fields - {"tags"} == map[];
  }

  /** The reply `createUserPost` gives to a missing or empty body; `None` means the post is saved. */
  function CreateUserPostGuard(body: Option<Value>): (r: Option<Reply>)
    ensures r.Some? ==> r.value == Reply(400, "No Request Body Provided")
    ensures body.Some? && body.value.Obj? ==> (r.None? <==> body.value.fields != map[])
    ensures body.None? ==> r.Some?
  {
    if body.None? || !Truthy(body.value) || KeyCount(body.value) == 0 then
      Some(Reply(400, "No Request Body Provided"))
    else None
  }
}
