/**
  The document store the handlers talk to: three collections in natural
  (insertion) order and the source of fresh ObjectIds. Each method is one
  store call the handlers make: `save` of a new document, `remove` of a
  found one, and the write half of `findOneAndUpdate`.
 */
module Store {
  import opened Documents

  /** Ids in `docs` are distinct and all below `bound`, the next id to be handed out. */
  ghost predicate WellKeyed<T>(docs: seq<Doc<T>>, bound: Id)
  {
    && (forall i :: 0 <= i < |docs| ==> docs[i].id < bound)
    && (forall i, j :: 0 <= i < j < |docs| ==> docs[i].id != docs[j].id)
  }

  class Database {
    var users: seq<Doc<User>>
    var posts: seq<Doc<Post>>
    var profiles: seq<Doc<ProfileFields>>
    var nextId: Id

    ghost predicate Valid()
      reads this
    {
      WellKeyed(users, nextId) && WellKeyed(posts, nextId) && WellKeyed(profiles, nextId)
    }

    constructor ()
      ensures Valid()
      ensures users == [] && posts == [] && profiles == []
    {
      users, posts, profiles, nextId := [], [], [], 0;
    }

    /** `new User(u).save()`. */
    method InsertUser(u: User) returns (doc: Doc<User>)
      requires Valid()
      modifies this
      ensures Valid()
      ensures doc == Doc(old(nextId), u) && nextId == old(nextId) + 1
      ensures users == old(users) + [doc]
      ensures posts == old(posts) && profiles == old(profiles)
    {
      doc := Doc(nextId, u);
      users := users + [doc];
      nextId := nextId + 1;
    }

    /** `new Post(p).save()`. */
    method InsertPost(p: Post) returns (doc: Doc<Post>)
      requires Valid()
      modifies this
      ensures Valid()
      ensures doc == Doc(old(nextId), p) && nextId == old(nextId) + 1
      ensures posts == old(posts) + [doc]
      ensures users == old(users) && profiles == old(profiles)
    {
      doc := Doc(nextId, p);
      posts := posts + [doc];
      nextId := nextId + 1;
    }

    /** `new Profile(f).save()`. */
    method InsertProfile(f: ProfileFields) returns (doc: Doc<ProfileFields>)
      requires Valid()
      modifies this
      ensures Valid()
      ensures doc == Doc(old(nextId), f) && nextId == old(nextId) + 1
      ensures profiles == old(profiles) + [doc]
      ensures users == old(users) && posts == old(posts)
    {
      doc := Doc(nextId, f);
      profiles := profiles + [doc];
      nextId := nextId + 1;
    }

    /** `post.remove()` on the post found at position `i`. */
    method RemovePost(i: nat)
      requires Valid() && i < |posts|
      modifies this
      ensures Valid()
      ensures posts == old(posts[..i] + posts[i + 1..])
      ensures users == old(users) && profiles == old(profiles) && nextId == old(nextId)
    {
      posts := posts[..i] + posts[i + 1..];
      assert forall k :: 0 <= k < |posts| ==> posts[k] == old(posts)[if k < i then k else k + 1];
    }

    /** The write of `findOneAndUpdate`: the profile at position `i` keeps its id and gets `f`. */
    method ReplaceProfile(i: nat, f: ProfileFields) returns (doc: Doc<ProfileFields>)
      requires Valid() && i < |profiles|
      modifies this
      ensures Valid()
      ensures doc == Doc(old(profiles[i].id), f)
      ensures profiles == old(profiles[i := doc])
      ensures users == old(users) && posts == old(posts) && nextId == old(nextId)
    {
      doc := Doc(profiles[i].id, f);
      profiles := profiles[i := doc];
    }
  }
}
