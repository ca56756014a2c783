/**
  The documents the three collections hold (users, posts, profiles), the
  shape of a handler's response, and `findOne` over a collection.
 */
module Documents {
  import opened Wrappers
  import opened Externals

  /** A MongoDB ObjectId, abstracted to a number; ids made later are larger. */
  type Id = nat

  /** A path or body value meant to hold an ObjectId: one, or text that does not cast to one. */
  datatype IdParam = ObjectId(id: Id) | Malformed(text: string)

  /** A stored document: its `_id` and its fields. */
  datatype Doc<T> = Doc(id: Id, body: T)

  /** The `password` field of a user document: as submitted, or replaced by its hash. */
  datatype Password = Plain(text: string) | Hashed(digest: Digest)

  datatype User = User(name: string, email: string, avatar: Avatar, password: Password)

  /** A post; `name` and `avatar` are copies of the author's, taken when the post is made. */
  datatype Post = Post(user: Id, text: string, name: string, avatar: Avatar, date: int)

  /** The `social` sub-document of a profile: a link is present only when one was supplied. */
  datatype Social = Social(
    youtube: Option<string>,
    facebook: Option<string>,
    twitter: Option<string>,
    instagram: Option<string>,
    linkedin: Option<string>)

  /** The fields of a profile document; an absent optional field is a key the document does not have. */
  datatype ProfileFields = ProfileFields(
    user: Id,
    company: Option<string>,
    website: Option<string>,
    location: Option<string>,
    bio: Option<string>,
    status: Option<string>,
    githubusername: Option<string>,
    skills: Option<seq<string>>,
    social: Social)

  /** What a handler sends: a JSON body with status 200, or an error status with its messages. */
  datatype Response<T> = Ok(body: T) | Error(status: nat, messages: seq<string>)

  /** One express-validator check: no message when it passes, its message when it fails. */
  function Check(passes: bool, message: string): seq<string>
  {
    if passes then [] else [message]
  }

  /** `findOne`: the position of the first document, in natural order, that satisfies `p`. */
  function FirstMatch<T>(docs: seq<T>, p: T -> bool): (r: Option<nat>)
    ensures r.None? ==> forall i :: 0 <= i < |docs| ==> !p(docs[i])
    ensures r.Some? ==> r.value < |docs| && p(docs[r.value])
    ensures r.Some? ==> forall i :: 0 <= i < r.value ==> !p(docs[i])
  {
    if docs == [] then None
    else if p(docs[0]) then Some(0)
    else match FirstMatch(docs[1..], p)
      case None => None
      case Some(k) => Some(k + 1)
  }

  /** A position holding the first match is what `FirstMatch` finds. */
  lemma FirstMatchAt<T>(docs: seq<T>, p: T -> bool, k: nat)
    requires k < |docs| && p(docs[k])
    requires forall i :: 0 <= i < k ==> !p(docs[i])
    ensures FirstMatch(docs, p) == Some(k)
  {
  }

  /** The filter `{_id: id}`. */
  function HasId<T>(id: Id): Doc<T> -> bool
  {
    (d: Doc<T>) => d.id == id
  }
}
