# Social-network backend: registration, posts and profiles

A Dafny model of the decision logic in three Express/Mongoose route files of a
small social-network backend. The three files are `routes/api/users.js`
(account registration), `routes/api/post.js` (create, list, get and delete
posts) and `routes/api/profile.js` (read a profile, and create or update one's
own profile).

Each handler is a method over a `Store.Database`. That class holds the three
MongoDB collections (users, posts, profiles) as sequences in natural order.
Each document is a `Doc(id, body)`, where `id` is the document's `_id`.
`nextId` stands for ObjectId generation: every new document gets a larger id
than any stored one. `findOne` and `findById` become `Documents.FirstMatch`,
which returns the first document in natural order that matches. This matters
once two profiles share an owner. A handler's answer is a
`Documents.Response`: either `Ok(body)`, sent with status 200, or
`Error(status, messages)`.

The authenticated account (`req.user.id`) is a parameter named `actor`. So
are the values the handlers take from outside:
- the clock (`now`);
- the randomness of `bcrypt.genSalt` (`entropy`);
- the configured JWT secret;
- express-validator's `isEmail`, passed as a function.

The libraries are symbolic in module `Externals`: a bcrypt hash, a gravatar
URL and a signed JSON Web Token (RFC 7519) are constructor terms that record
their inputs.

Some string operations are modelled exactly, as JavaScript defines them.
`trim` strips ECMAScript WhiteSpace and LineTerminator code points, and
`split(",")` yields one more piece than there are commas. A request field
that is missing and one sent as `""` are both `""`, because both are false
in JavaScript.

Some behaviours of the code worth knowing:
- `GET /api/post/:post_id` answers 401 for an absent post and 400 for a
  malformed id. `DELETE` uses the two codes the other way round: 400 for an
  absent post and 401 for a malformed id.
- The profile upsert as written does not keep one profile per account (see
  Findings).
- An update replaces the stored `social` links as a whole.
- Registration answers 400 for a duplicate email, and compares emails
  exactly as stored, with no case folding.
- The registration token's `expiresIn` is 36000000 seconds.

## Model

| member | source | states |
|---|---|---|
| `Text.Trim` | routes/api/profile.js:77 | the trimmed string is the slice of the input after its leading whitespace, it neither starts nor ends with whitespace, and only whitespace follows it |
| `Text.TrimOfPadded` | routes/api/profile.js:77 | trimming whitespace padding off a string that has none of its own gives that string: `Trim(pre + mid + post) == mid`, which fixes `Trim` uniquely |
| `Text.TrimOfToken` | routes/api/profile.js:77 | a string without whitespace at either end is its own trim |
| `Text.TrimIdempotent` | routes/api/profile.js:77 | trimming twice is trimming once |
| `Text.LeadingSpace` | routes/api/profile.js:77 | the whitespace run at the front of a string: all whitespace, and followed by a non-whitespace code point or the end |
| `Text.ContentEnd` | routes/api/profile.js:77 | everything after the returned index is whitespace, and the code point before it is not |
| `Text.Split` | routes/api/profile.js:77 | `split(sep)` yields exactly one more piece than there are separators, and no piece contains the separator |
| `Text.IndexOf` | routes/api/profile.js:77 | the position of the first separator, with none before it, or the length when there is none |
| `Text.JoinOfSplit` | routes/api/profile.js:77 | joining the pieces of a split with the separator gives back the original string |
| `Text.SplitOfJoin` | routes/api/profile.js:77 | splitting a join of separator-free pieces gives back those pieces, in order |
| `Text.CountConcat` | routes/api/profile.js:77 | the separator count of a concatenation is the sum of the counts |
| `Text.CountAbsent` | routes/api/profile.js:77 | a string without the separator has a count of zero |
| `Profiles.ProfileErrors` | routes/api/profile.js:42-50 | the request is rejected exactly when `status` or `skills` is empty, with "Status is required!" exactly when `status` is empty and "Skills are required!" exactly when `skills` is empty; the list holds exactly the failed checks' messages, once each, status first |
| `Profiles.SkillList` | routes/api/profile.js:76-78 | the skill list has exactly one entry more than the input has commas |
| `Profiles.SkillsOfSegments` | routes/api/profile.js:76-78 | for any comma-separated segments, entry `i` of the skill list is segment `i` trimmed, in the original order |
| `Profiles.SkillsAreTokens` | routes/api/profile.js:77 | no skill contains a comma or starts or ends with whitespace |
| `Profiles.SkillsOfTokens` | routes/api/profile.js:76-78 | normalising clean tokens joined by commas gives back exactly those tokens |
| `Profiles.BuildSocial` | routes/api/profile.js:80-86 | `social` is a fresh record in which each of youtube/facebook/twitter/instagram/linkedin is present exactly when the request's value is truthy, and then holds that value |
| `Profiles.BuildProfile` | routes/api/profile.js:67-86 | the built record's `user` is the actor; each of company, website, location, bio, status, githubusername and skills is present exactly when the request value is truthy, and then holds the request's value (skills: the normalised list, with commas+1 entries); `social` is always present and is `BuildSocial`'s record |
| `Profiles.SetOfBuiltProfile` | routes/api/profile.js:92-98 | after `$set` of a built record, a field the request supplies takes the request's value and every other field keeps its stored value; the stored social links are replaced as a whole by the request's record, so a link the request does not resupply is lost |
| `Profiles.ApplySet` | routes/api/profile.js:92-98 | `$set`: each key the update has replaces the stored value, every key it lacks keeps the stored value, and `user` and the whole `social` sub-document are always replaced |
| `Profiles.UpsertOutcome` | routes/api/profile.js:46-110 | an invalid request gets 400 with its messages and changes nothing; a lookup key that is not an ObjectId gets 500 and changes nothing; when the lookup finds no profile (including when there is no key), the built record is appended under the fresh id and returned, even if the actor already has a profile; when it finds one, the actor's first profile is replaced by the `$set` of the built record onto it, or the reply is `null` with nothing changed if the actor has none; no profile of another account changes; a returned profile is stored and owned by the actor |
| `Profiles.UpsertUpdatesFirstProfile` | routes/api/profile.js:92-99 | on the update path, the actor's first profile keeps its id and owner, each field the request supplies takes the request's value, every other field keeps its stored value, the social links are the request's, and every other profile is unchanged; an actor with no profile gets `null` and the collection is unchanged |
| `Profiles.ApplySetIdempotent` | routes/api/profile.js:96 | applying the same `$set` twice equals applying it once, and a record set onto itself is unchanged |
| `Profiles.SaveProfile` | routes/api/profile.js:46-110 | an invalid request gets 400 with the validation messages and leaves the store unchanged; otherwise the reply and the new profiles collection are those of `UpsertOutcome`: 500 for a lookup key that is not an ObjectId, insert under a fresh id when the lookup finds nothing, otherwise `$set` onto the actor's first profile or a `null` reply when the actor has none; users and posts are untouched |
| `Profiles.UpsertAsWritten` | routes/api/profile.js:88-106 | the upsert as written, with the existence test keyed on the body's `id` field and the update keyed on the actor |
| `Profiles.Upsert` | routes/api/profile.js:88-106 | the corrected upsert, with both the test and the update keyed on the actor; it keeps at most one profile per account and leaves the actor with a profile after a valid request |
| `Profiles.UpsertKeepsOneProfilePerUser` | routes/api/profile.js:88-106 | when the upsert is keyed on the actor, no account ends up with two profiles, and a valid request leaves the actor with a profile |
| `Profiles.UpsertTwiceIsOnce` | routes/api/profile.js:88-106 | when the upsert is keyed on the actor, repeating it with the same request gives the same reply and the same collection as doing it once |
| `Profiles.AsWrittenDuplicatesProfile` | routes/api/profile.js:89-105 | as written, a request without an `id` field from an account that already has a profile inserts a second profile for that account |
| `Profiles.AsWrittenSkipsNewProfile` | routes/api/profile.js:89-99 | as written, a request whose `id` names another account's profile, from an actor without a profile, gets a `null` reply and stores nothing |
| `Profiles.GetMyProfile` | routes/api/profile.js:15-26 | `GET /me` succeeds exactly when the actor has a profile, and then returns the actor's first profile in natural order, as `findOne` does; otherwise it is 400 "No profile found with this user!" and nothing else |
| `Profiles.GetProfileByUser` | routes/api/profile.js:132-151 | succeeds exactly when the id is well formed and names an account with a profile, and then returns that account's first profile in natural order; an absent profile and a malformed id get the same 400 reply |
| `Posts.CreatePost` | routes/api/post.js:14-37 | empty text gets 400 "Post text is required!" and inserts nothing; an actor with no user record gets 500 and nothing is inserted; otherwise exactly one post is appended under a fresh id, with `user` the actor and `name`/`avatar` copied from the actor's user record at that moment |
| `Posts.InsertByDate` | routes/api/post.js:46 | inserting a post into a newest-first list keeps it newest-first and adds exactly that post |
| `Posts.NewestFirst` | routes/api/post.js:46 | the result is ordered by `date` descending and is a permutation of the collection |
| `Posts.ListPosts` | routes/api/post.js:44-47 | `GET /` returns every stored post exactly once, newest first |
| `Posts.GetPost` | routes/api/post.js:57-65 | a malformed id gets 400 "No post found!"; an absent post gets 401 "No post found!"; otherwise the reply is the stored post with that id, unchanged |
| `Posts.DeletePost` | routes/api/post.js:76-89 | a malformed id gets 401; an absent post gets 400, and existence is checked before ownership; a non-owner gets 401 and the post stays; the owner's delete removes exactly that post and keeps every other post; nothing else in the store changes |
| `Users.RegistrationErrors` | routes/api/users.js:15-29 | registration is rejected exactly when the name is empty, the email is not an email, or the password has fewer than 6 characters, with each check's message exactly when that check fails; the list holds exactly the failed checks' messages, once each, in the order name, email, password |
| `Users.Register` | routes/api/users.js:23-78 | a validation failure gets 400 and an existing email (exact match) gets 400 "Email already exists!", both with the store unchanged; otherwise exactly one user is appended, with the given name and email, the gravatar of the email, and the password replaced by its hash under a salt of cost 10; the stored password is not the plaintext and checks against it; the reply is a token with payload `{user: {id}}` for the new id and `expiresIn` 36000000; distinct emails stay distinct |
| `Externals.GenSalt` | routes/api/users.js:56 | `bcrypt.genSalt(10)`: the salt records its cost factor and the randomness drawn for it |
| `Externals.Hash` | routes/api/users.js:57 | `bcrypt.hash`: the hash records the salt it was made with, which is what lets `compare` check a password against it alone |
| `Externals.Sign` | routes/api/users.js:70-73 | `jwt.sign` with `expiresIn`: the token carries the payload and the secret, `iat` is the signing time and `exp` is `expiresIn` seconds later |
| `Externals.Verify` | routes/api/users.js:70-78 | `jwt.verify` of the issued token: a token signed with another secret is rejected; otherwise it is expired exactly when `exp` is not in the future, and accepted, yielding its payload, exactly when it is |
| `Externals.CompareHash` | routes/api/users.js:56-57 | a bcrypt hash checks against the password it was made from |
| `Externals.SignThenVerify` | routes/api/users.js:70-78 | a signed token verifies to its payload until `expiresIn` seconds have passed, and is expired from then on |
| `Documents.FirstMatch` | routes/api/users.js:34 | `findOne` returns the first matching document in natural order, or nothing exactly when no document matches |
| `Store.Database.InsertUser` | routes/api/users.js:60 | `save` appends the user under a fresh id and changes no other collection |
| `Store.Database.InsertPost` | routes/api/post.js:32 | `save` appends the post under a fresh id and changes no other collection |
| `Store.Database.InsertProfile` | routes/api/profile.js:103-104 | `save` appends the profile under a fresh id and changes no other collection |
| `Store.Database.RemovePost` | routes/api/post.js:85 | `remove` takes out exactly the found post and keeps ids distinct |
| `Store.Database.ReplaceProfile` | routes/api/profile.js:92-98 | the update writes new fields into the found profile and keeps its id |

## Left out

- Express routing, the authentication middleware and response plumbing are not modelled. The actor is a parameter. A response is only a status and its messages: the different JSON shapes of the error bodies (`errors` vs `error` keys, messages wrapped in arrays) are not kept.
- routes/api/auth.js (`GET /api/auth`), config/db.js and server.js are not part of this model. They are a projection, the connection bootstrap and the listener, with no decision logic.
- `GET /api/profile`, which lists every profile, is not modelled. It returns the whole collection with `populate` and makes no decision.
- `populate` joins on the profile reads and console logging are not modelled.
- The 500 answers for store faults are not modelled. Two 500 answers that come from the request itself are modelled: a body `id` that is not an ObjectId in the profile upsert, and a post created by an actor with no user record.
- In registration, a store fault in the email lookup (outside the `try`) and an error thrown inside the `jwt.sign` callback are not modelled. Both escape the handler rather than producing a reply.
- bcrypt, gravatar and JWT are symbolic terms. Their cryptography, one-wayness and URL format are not modelled. `isEmail`, the salt's randomness, the clock and the secret are parameters.
- Externals.CompareHash: states only that a hash checks against its own password. The symbolic `Digest` is injective, unlike bcryptjs, which reads only the first 72 UTF-8 bytes of a password; no contract relies on the converse.
- `Externals.Avatar` records the email as given; gravatar trims and lowercases it before hashing, so two emails differing only in case or padding get the same URL in the library but not in the model.
- Externals.SignThenVerify: `jwt.verify` belongs to the middleware, which is not part of this model. It is given only as the inverse of signing.
- Profiles.ProfileErrors: express-validator's `check` reads a field from the body, query, params, cookies or headers, but the handler reads only `req.body`. The model uses one value for both, so a request whose `status` or `skills` passes validation from the query string while the body lacks it is not captured.
- Users.RegistrationErrors: same as above for `name`, `email` and `password`, which the handler takes from `req.body` only.
- Posts.CreatePost: same as above for `text`, which the post takes from `req.body.text`.
- Request values are strings, and a value is truthy exactly when it is non-empty. JSON numbers, booleans, arrays and `null` in a body are not modelled.
- When the body has no `id`, the upsert's lookup filter is taken to match no profile. This assumes the driver sends `{user: undefined}` as `{user: null}`, and every profile has a user.
- Users.RegistrationErrors: password length is counted in code points, so a surrogate pair counts once. Newer validator releases also discount variation selectors, and that is not modelled.
- Mongoose schema defaults and casting are not modelled. This covers a post's `date` default (given here as `now`), the `likes`/`comments` arrays and the profile's `experience`/`education`/`date` fields. A `$set` never touches those fields anyway.
- Posts.ListPosts: MongoDB leaves the order of posts with equal dates unspecified. `NewestFirst` fixes one order, and the contract promises only the date order and that every post appears exactly once.
- Concurrency is not modelled: there are no races between requests. This includes the undeclared (global) `errors` and `profile` variables in the profile upsert, which concurrent requests share.
- The like, comment, experience and education handlers are not part of this model.

## Findings

| source | as written | input that shows it | evidently intended | confidence | as-written member | corrected member |
|---|---|---|---|---|---|---|
| routes/api/profile.js:89 | the existence test is `Profile.findOne({ user: req.body.id })`, while the update at line 92 is keyed on `req.user.id` | an account that already has a profile posts the form again without an `id` field: no profile matches, so a second profile is saved for the same account; or the body `id` names another account's profile while the actor has none: the update matches nothing and the reply is `null` | test for the actor's own profile, `findOne({ user: req.user.id })`, so that each account has one profile, which is created once and updated afterwards | high; not executed | `Profiles.AsWrittenDuplicatesProfile` | `Profiles.UpsertKeepsOneProfilePerUser` |
