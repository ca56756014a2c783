/**
  The post routes: create a post, list all posts newest first, get one post
  and delete one's own post. `actor` is the account id the authentication
  middleware resolved from the request's token.
 */
module Posts {
  import opened Documents
  import opened Store

  const TextRequired := "Post text is required!"
  const CreateFailed := "Server Error!"
  const NoPost := "No post found!"
  const NotAuthorized := "You are not authorized to do that!!!!"
  const PostRemoved := "Post removed successfully!"

  /** Dates never increase along `s`: the order `sort("-date")` asks for. */
  predicate NewestFirstOrder(s: seq<Doc<Post>>)
  {
    forall i, j :: 0 <= i < j < |s| ==> s[j].body.date <= s[i].body.date
  }

  /** A post no older than the head of a newest-first list can go in front of it. */
  lemma PrependKeepsOrder(x: Doc<Post>, s: seq<Doc<Post>>)
    requires NewestFirstOrder(s)
    requires s == [] || s[0].body.date <= x.body.date
    ensures NewestFirstOrder([x] + s)
  {
    var r := [x] + s;
    forall i, j | 0 <= i < j < |r| ensures r[j].body.date <= r[i].body.date {
      if i == 0 {
        assert r[j] == s[j - 1];
      }
    }
  }

  /** `d` placed into a newest-first list, before the first post that is not newer. */
  function InsertByDate(d: Doc<Post>, s: seq<Doc<Post>>): (r: seq<Doc<Post>>)
    requires NewestFirstOrder(s)
    ensures NewestFirstOrder(r)
    ensures |r| == |s| + 1
    ensures multiset(r) == multiset(s) + multiset{d}
    ensures forall k :: 0 <= k < |r| ==> r[k] == d || r[k] in s
  {
    if s == [] || s[0].body.date <= d.body.date then
      PrependKeepsOrder(d, s);
      [d] + s
    else
      var rest := InsertByDate(d, s[1..]);
      assert s == [s[0]] + s[1..];
      assert rest[0] == d || rest[0] in s[1..];
      PrependKeepsOrder(s[0], rest);
      [s[0]] + rest
  }

  /** The posts of `s`, newest first. */
  function NewestFirst(s: seq<Doc<Post>>): (r: seq<Doc<Post>>)
    ensures NewestFirstOrder(r)
    ensures multiset(r) == multiset(s)
  {
    if s == [] then []
    else
      assert s == [s[0]] + s[1..];
      InsertByDate(s[0], NewestFirst(s[1..]))
  }

  /** `POST /api/post`. */
  method CreatePost(db: Database, actor: Id, text: string, now: int) returns (r: Response<Doc<Post>>)
    requires db.Valid()
    modifies db
    ensures db.Valid()
    ensures db.users == old(db.users) && db.profiles == old(db.profiles)
    ensures text == "" ==> r == Error(400, [TextRequired]) && unchanged(db)
    ensures text != "" && FirstMatch(old(db.users), HasId(actor)).None? ==>
              r == Error(500, [CreateFailed]) && unchanged(db)
    ensures r.Ok? <==> text != "" && FirstMatch(old(db.users), HasId(actor)).Some?
    ensures r.Ok? ==>
              var author := old(db.users)[FirstMatch(old(db.users), HasId(actor)).value];
              && author.id == actor
              && r.body == Doc(old(db.nextId), Post(actor, text, author.body.name, author.body.avatar, now))
              && db.posts == old(db.posts) + [r.body]
  {
    var errors := Check(text != "", TextRequired);
    if errors != [] {
      return Error(400, errors);
    }
    var found := FirstMatch(db.users, HasId(actor));
    if found.None? {
      // `user` is null, so reading `user.name` throws and the catch answers 500
      return Error(500, [CreateFailed]);
    }
    var author := db.users[found.value].body;
    var doc := db.InsertPost(Post(actor, text, author.name, author.avatar, now));
    r := Ok(doc);
  }

  /** `GET /api/post`: every post, newest first. */
  method ListPosts(db: Database) returns (r: seq<Doc<Post>>)
    ensures NewestFirstOrder(r)
    ensures multiset(r) == multiset(db.posts)
  {
    r := NewestFirst(db.posts);
  }

  /** `GET /api/post/:post_id`. */
  method GetPost(db: Database, param: IdParam) returns (r: Response<Doc<Post>>)
    requires db.Valid()
    ensures param.Malformed? ==> r == Error(400, [NoPost])
    ensures param.ObjectId? && (forall i :: 0 <= i < |db.posts| ==> db.posts[i].id != param.id) ==>
              r == Error(401, [NoPost])
    ensures r.Ok? <==> param.ObjectId? && exists i :: 0 <= i < |db.posts| && db.posts[i].id == param.id
    ensures r.Ok? ==> r.body in db.posts && r.body.id == param.id
  {
    match param {
      case Malformed(_) =>
        r := Error(400, [NoPost]);
      case ObjectId(id) =>
        var found := FirstMatch(db.posts, HasId(id));
        if found.None? {
          r := Error(401, [NoPost]);
        } else {
          r := Ok(db.posts[found.value]);
        }
    }
  }

  /** `DELETE /api/post/:post_id`: existence first, then ownership, then removal. */
  method DeletePost(db: Database, actor: Id, param: IdParam) returns (r: Response<string>)
    requires db.Valid()
    modifies db
    ensures db.Valid()
    ensures db.users == old(db.users) && db.profiles == old(db.profiles) && db.nextId == old(db.nextId)
    ensures param.Malformed? ==> r == Error(401, [NoPost]) && unchanged(db)
    ensures param.ObjectId? && FirstMatch(old(db.posts), HasId(param.id)).None? ==>
              r == Error(400, [NoPost]) && unchanged(db)
    ensures param.ObjectId? && FirstMatch(old(db.posts), HasId(param.id)).Some? ==>
              var i := FirstMatch(old(db.posts), HasId(param.id)).value;
              if old(db.posts)[i].body.user != actor then
                r == Error(401, [NotAuthorized]) && unchanged(db)
              else
                r == Ok(PostRemoved) && db.posts == old(db.posts[..i] + db.posts[i + 1..])
    ensures r.Ok? ==> forall d :: d in old(db.posts) && d.id != param.id <==> d in db.posts
  {
    match param {
      case Malformed(_) =>
        r := Error(401, [NoPost]);
      case ObjectId(id) =>
        var found := FirstMatch(db.posts, HasId(id));
        if found.None? {
          return Error(400, [NoPost]);
        }
        var i := found.value;
        if db.posts[i].body.user != actor {
          return Error(401, [NotAuthorized]);
        }
        ghost var before := db.posts;
        db.RemovePost(i);
        r := Ok(PostRemoved);
        forall d
          ensures d in before && d.id != id <==> d in db.posts
        {
          if d in before {
            var k :| 0 <= k < |before| && before[k] == d;
            assert d.id == id <==> k == i;
          }
        }
    }
  }
}
