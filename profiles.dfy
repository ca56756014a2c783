/**
  The profile routes: `GET /api/profile/me`, `GET /api/profile/user/:user_id`
  and `POST /api/profile`, which validates the request, builds a profile
  record from it and then either `$set`s that record onto a stored profile
  or saves it as a new one. `actor` is the account id the authentication
  middleware resolved from the request's token.
 */
module Profiles {
  import opened Wrappers
  import opened Text
  import opened Documents
  import opened Store

  const StatusRequired := "Status is required!"
  const SkillsRequired := "Skills are required!"
  const ServerError := "Server error!"
  const NoProfileForActor := "No profile found with this user!"
  const NoProfileForUserId := "Can't find profile with provided userId!"

  /**
    The body of `POST /api/profile`. A field the client left out and a field
    sent as "" are both "", since JavaScript treats both as false. `id` is
    the body's own `id` field: absent, or a value meant to be an ObjectId.
   */
  datatype ProfileRequest = ProfileRequest(
    company: string,
    website: string,
    location: string,
    bio: string,
    status: string,
    githubusername: string,
    skills: string,
    youtube: string,
    facebook: string,
    twitter: string,
    instagram: string,
    linkedin: string,
    id: Option<IdParam>)

  /** The two validation checks, in the order they are declared. */
  function ProfileErrors(req: ProfileRequest): (errors: seq<string>)
    ensures errors == [] <==> req.status != "" && req.skills != ""
    ensures StatusRequired in errors <==> req.status == ""
    ensures SkillsRequired in errors <==> req.skills == ""
    ensures |errors| == (if req.status == "" then 1 else 0) + (if req.skills == "" then 1 else 0)
    ensures req.status == "" ==> errors[0] == StatusRequired
    ensures req.skills == "" ==> errors[|errors| - 1] == SkillsRequired
  {
    Check(req.status != "", StatusRequired) + Check(req.skills != "", SkillsRequired)
  }

  /** `if (value) record.key = value`: the key is set only for a truthy value. */
  function Given(value: string): Option<string>
  {
    if value == "" then None else Some(value)
  }

  /** `skills.split(",").map((item) => item.trim())`. */
  function SkillList(skills: string): (r: seq<string>)
    ensures |r| == Count(skills, ',') + 1
  {
    var parts := Split(skills, ',');
    seq(|parts|, i requires 0 <= i < |parts| => Trim(parts[i]))
  }

  /**
    Every string is its comma-separated segments joined by commas (see
    `JoinOfSplit`); the skill list is those segments, each trimmed, in order.
   */
  lemma SkillsOfSegments(segments: seq<string>)
    requires |segments| >= 1
    requires forall i :: 0 <= i < |segments| ==> ',' !in segments[i]
    ensures |SkillList(Join(segments, ','))| == |segments|
    ensures forall i :: 0 <= i < |segments| ==> SkillList(Join(segments, ','))[i] == Trim(segments[i])
  {
    SplitOfJoin(segments, ',');
  }

  /** A skill is a token: it holds no comma and neither starts nor ends with whitespace. */
  lemma SkillsAreTokens(skills: string)
    ensures forall i :: 0 <= i < |SkillList(skills)| ==>
              var t := SkillList(skills)[i];
              ',' !in t && (t == [] || (!IsWhitespace(t[0]) && !IsWhitespace(t[|t| - 1])))
  {
    var parts := Split(skills, ',');
    forall i | 0 <= i < |parts|
      ensures ',' !in Trim(parts[i])
    {
      var p, t := parts[i], Trim(parts[i]);
      var a := LeadingSpace(p);
      assert forall k :: 0 <= k < |t| ==> t[k] == p[a + k];
    }
  }

  /** Normalising a list that is already clean tokens joined by commas gives that list back. */
  lemma SkillsOfTokens(tokens: seq<string>)
    requires |tokens| >= 1
    requires forall i :: 0 <= i < |tokens| ==> ',' !in tokens[i]
    requires forall i :: 0 <= i < |tokens| ==>
               tokens[i] == [] || (!IsWhitespace(tokens[i][0]) && !IsWhitespace(tokens[i][|tokens[i]| - 1]))
    ensures SkillList(Join(tokens, ',')) == tokens
  {
    var r := SkillList(Join(tokens, ','));
    SkillsOfSegments(tokens);
    forall i | 0 <= i < |tokens|
      ensures r[i] == tokens[i]
    {
      TrimOfToken(tokens[i]);
    }
  }

  /** The `social` sub-record: a fresh record holding just the truthy links. */
  function BuildSocial(req: ProfileRequest): (s: Social)
    ensures s.youtube.Some? <==> req.youtube != ""
    ensures s.facebook.Some? <==> req.facebook != ""
    ensures s.twitter.Some? <==> req.twitter != ""
    ensures s.instagram.Some? <==> req.instagram != ""
    ensures s.linkedin.Some? <==> req.linkedin != ""
    ensures req.youtube != "" ==> s.youtube == Some(req.youtube)
    ensures req.facebook != "" ==> s.facebook == Some(req.facebook)
    ensures req.twitter != "" ==> s.twitter == Some(req.twitter)
    ensures req.instagram != "" ==> s.instagram == Some(req.instagram)
    ensures req.linkedin != "" ==> s.linkedin == Some(req.linkedin)
  {
    Social(Given(req.youtube), Given(req.facebook), Given(req.twitter), Given(req.instagram), Given(req.linkedin))
  }

  /**
    The record `profileObject`: owned by the actor, holding each optional
    field only when the request's value is truthy, the normalised skill list
    and a fresh `social` record.
   */
  function BuildProfile(actor: Id, req: ProfileRequest): (p: ProfileFields)
    ensures p.user == actor
    ensures p.company.Some? <==> req.company != ""
    ensures p.website.Some? <==> req.website != ""
    ensures p.location.Some? <==> req.location != ""
    ensures p.bio.Some? <==> req.bio != ""
    ensures p.status.Some? <==> req.status != ""
    ensures p.githubusername.Some? <==> req.githubusername != ""
    ensures p.skills.Some? <==> req.skills != ""
    ensures req.company != "" ==> p.company == Some(req.company)
    ensures req.website != "" ==> p.website == Some(req.website)
    ensures req.location != "" ==> p.location == Some(req.location)
    ensures req.bio != "" ==> p.bio == Some(req.bio)
    ensures req.status != "" ==> p.status == Some(req.status)
    ensures req.githubusername != "" ==> p.githubusername == Some(req.githubusername)
    ensures p.skills.Some? ==> p.skills.value == SkillList(req.skills)
    ensures p.skills.Some? ==> |p.skills.value| == Count(req.skills, ',') + 1
    ensures p.social == BuildSocial(req)
  {
    ProfileFields(
      actor,
      Given(req.company),
      Given(req.website),
      Given(req.location),
      Given(req.bio),
      Given(req.status),
      Given(req.githubusername),
      if req.skills != "" then Some(SkillList(req.skills)) else None,
      BuildSocial(req))
  }

  /** One key of a `$set`: replaced when the update has it, kept otherwise. */
  function Override<T>(stored: Option<T>, update: Option<T>): Option<T>
  {
    if update.Some? then update else stored
  }

  /**
    `{$set: update}` applied to a stored profile: each key the update has
    replaces the stored one and every other stored key stays. `user` and
    `social` are keys of every built record, so they are always replaced,
    `social` as a whole sub-document rather than link by link.
   */
  function ApplySet(stored: ProfileFields, update: ProfileFields): (r: ProfileFields)
    ensures r.user == update.user && r.social == update.social
    ensures update.company.Some? ==> r.company == update.company
    ensures update.company.None? ==> r.company == stored.company
    ensures update.website.Some? ==> r.website == update.website
    ensures update.website.None? ==> r.website == stored.website
    ensures update.location.Some? ==> r.location == update.location
    ensures update.location.None? ==> r.location == stored.location
    ensures update.bio.Some? ==> r.bio == update.bio
    ensures update.bio.None? ==> r.bio == stored.bio
    ensures update.status.Some? ==> r.status == update.status
    ensures update.status.None? ==> r.status == stored.status
    ensures update.githubusername.Some? ==> r.githubusername == update.githubusername
    ensures update.githubusername.None? ==> r.githubusername == stored.githubusername
    ensures update.skills.Some? ==> r.skills == update.skills
    ensures update.skills.None? ==> r.skills == stored.skills
  {
    ProfileFields(
      update.user,
      Override(stored.company, update.company),
      Override(stored.website, update.website),
      Override(stored.location, update.location),
      Override(stored.bio, update.bio),
      Override(stored.status, update.status),
      Override(stored.githubusername, update.githubusername),
      Override(stored.skills, update.skills),
      update.social)
  }

  /**
    Updating a stored profile with a request: a field the request supplies
    (truthy) takes its value, any other field keeps the stored value, and the
    stored social links are all replaced by the request's, so a stored link
    the request does not repeat is lost.
   */
  lemma SetOfBuiltProfile(stored: ProfileFields, actor: Id, req: ProfileRequest)
    ensures var r := ApplySet(stored, BuildProfile(actor, req));
            && r.user == actor
            && r.company == (if req.company != "" then Some(req.company) else stored.company)
            && r.website == (if req.website != "" then Some(req.website) else stored.website)
            && r.location == (if req.location != "" then Some(req.location) else stored.location)
            && r.bio == (if req.bio != "" then Some(req.bio) else stored.bio)
            && r.status == (if req.status != "" then Some(req.status) else stored.status)
            && r.githubusername == (if req.githubusername != "" then Some(req.githubusername) else stored.githubusername)
            && r.skills == (if req.skills != "" then Some(SkillList(req.skills)) else stored.skills)
            && (r.social.youtube.Some? <==> req.youtube != "")
            && (r.social.facebook.Some? <==> req.facebook != "")
            && (r.social.twitter.Some? <==> req.twitter != "")
            && (r.social.instagram.Some? <==> req.instagram != "")
            && (r.social.linkedin.Some? <==> req.linkedin != "")
            && r.social == BuildSocial(req)
  {
  }

  /** Applying the same `$set` twice is applying it once, and a record set onto itself is unchanged. */
  lemma ApplySetIdempotent(stored: ProfileFields, update: ProfileFields)
    ensures ApplySet(ApplySet(stored, update), update) == ApplySet(stored, update)
    ensures ApplySet(update, update) == update
  {
  }

  /** The filter `{user: user}` on profiles. */
  function OwnedBy(user: Id): Doc<ProfileFields> -> bool
  {
    (d: Doc<ProfileFields>) => d.body.user == user
  }

  predicate HasProfile(profiles: seq<Doc<ProfileFields>>, user: Id)
  {
    exists i :: 0 <= i < |profiles| && profiles[i].body.user == user
  }

  /** The one-profile-per-account rule: no two profiles share an owner. */
  predicate OneProfilePerUser(profiles: seq<Doc<ProfileFields>>)
  {
    forall i, j :: 0 <= i < j < |profiles| ==> profiles[i].body.user != profiles[j].body.user
  }

  /** The existence test keyed on `key` finds a profile: `key` is an ObjectId that some profile's `user` equals. */
  predicate LookupFinds(profiles: seq<Doc<ProfileFields>>, key: Option<IdParam>)
  {
    key.Some? && key.value.ObjectId? && FirstMatch(profiles, OwnedBy(key.value.id)).Some?
  }

  /** The reply of a profile upsert and the profiles collection after it. */
  datatype Upserted = Upserted(reply: Response<Option<Doc<ProfileFields>>>, profiles: seq<Doc<ProfileFields>>)

  /**
    `POST /api/profile` when its existence test looks for a profile owned by
    `key`. No key matches nothing (the filter asks for `user: null`); a key
    that is not an ObjectId makes the lookup throw, which the catch answers
    with 500. When no profile matches, the built record is saved under the
    fresh id. When one does, the record is `$set` onto the first profile the
    actor owns, and the reply is `null` if the actor owns none.
   */
  function UpsertOutcome(profiles: seq<Doc<ProfileFields>>, newId: Id, actor: Id, req: ProfileRequest, key: Option<IdParam>): (u: Upserted)
    ensures ProfileErrors(req) != [] ==> u == Upserted(Error(400, ProfileErrors(req)), profiles)
    ensures u.reply.Error? ==> u.profiles == profiles
    ensures u.profiles == profiles || u.profiles == profiles + [Doc(newId, BuildProfile(actor, req))]
            || (|u.profiles| == |profiles| && forall i :: 0 <= i < |profiles| ==> u.profiles[i].id == profiles[i].id)
    ensures |profiles| <= |u.profiles|
    ensures forall i :: 0 <= i < |profiles| && profiles[i].body.user != actor ==> u.profiles[i] == profiles[i]
    ensures u.reply.Ok? && u.reply.body.Some? ==> u.reply.body.value in u.profiles && u.reply.body.value.body.user == actor
    ensures ProfileErrors(req) == [] && key.Some? && key.value.Malformed? ==> u == Upserted(Error(500, [ServerError]), profiles)
    ensures ProfileErrors(req) == [] && (key.None? || key.value.ObjectId?) && !LookupFinds(profiles, key) ==>
            var doc := Doc(newId, BuildProfile(actor, req));
            u == Upserted(Ok(Some(doc)), profiles + [doc])
    ensures ProfileErrors(req) == [] && LookupFinds(profiles, key) && FirstMatch(profiles, OwnedBy(actor)).None? ==>
            u == Upserted(Ok(None), profiles)
    ensures ProfileErrors(req) == [] && LookupFinds(profiles, key) && FirstMatch(profiles, OwnedBy(actor)).Some? ==>
            var i := FirstMatch(profiles, OwnedBy(actor)).value;
            var doc := Doc(profiles[i].id, ApplySet(profiles[i].body, BuildProfile(actor, req)));
            u == Upserted(Ok(Some(doc)), profiles[i := doc])
  {
    var errors := ProfileErrors(req);
    if errors != [] then Upserted(Error(400, errors), profiles)
    else if key.Some? && key.value.Malformed? then Upserted(Error(500, [ServerError]), profiles)
    else
      var built := BuildProfile(actor, req);
      if key.None? || FirstMatch(profiles, OwnedBy(key.value.id)).None? then
        var doc := Doc(newId, built);
        Upserted(Ok(Some(doc)), profiles + [doc])
      else
        match FirstMatch(profiles, OwnedBy(actor))
        case None => Upserted(Ok(None), profiles)
        case Some(i) =>
          var doc := Doc(profiles[i].id, ApplySet(profiles[i].body, built));
          Upserted(Ok(Some(doc)), profiles[i := doc])
  }

  /**
    When the existence test finds a profile, the actor's first profile is
    updated in place: it keeps its id, a field the request supplies takes
    the request's value, every other field keeps its stored value, the
    social links are the request's, and no other profile changes. An actor
    without a profile gets a `null` reply and the collection stays as it was.
   */
  lemma UpsertUpdatesFirstProfile(profiles: seq<Doc<ProfileFields>>, newId: Id, actor: Id, req: ProfileRequest, key: Option<IdParam>)
    requires ProfileErrors(req) == [] && LookupFinds(profiles, key)
    ensures var u := UpsertOutcome(profiles, newId, actor, req, key);
            FirstMatch(profiles, OwnedBy(actor)).None? ==> u == Upserted(Ok(None), profiles)
    ensures var u := UpsertOutcome(profiles, newId, actor, req, key);
            FirstMatch(profiles, OwnedBy(actor)).Some? ==>
            var i := FirstMatch(profiles, OwnedBy(actor)).value;
            var stored := profiles[i].body;
            var r := u.profiles[i];
            && |u.profiles| == |profiles|
            && u.reply == Ok(Some(r))
            && r.id == profiles[i].id
            && r.body.user == actor
            && r.body.company == (if req.company != "" then Some(req.company) else stored.company)
            && r.body.website == (if req.website != "" then Some(req.website) else stored.website)
            && r.body.location == (if req.location != "" then Some(req.location) else stored.location)
            && r.body.bio == (if req.bio != "" then Some(req.bio) else stored.bio)
            && r.body.status == (if req.status != "" then Some(req.status) else stored.status)
            && r.body.githubusername == (if req.githubusername != "" then Some(req.githubusername) else stored.githubusername)
            && r.body.skills == (if req.skills != "" then Some(SkillList(req.skills)) else stored.skills)
            && r.body.social == BuildSocial(req)
            && (forall k :: 0 <= k < |profiles| && k != i ==> u.profiles[k] == profiles[k])
  {
    match FirstMatch(profiles, OwnedBy(actor))
    case None =>
    case Some(i) =>
      SetOfBuiltProfile(profiles[i].body, actor, req);
  }

  /** The upsert handler, with the existence test looking for a profile owned by `key`. */
  method SaveProfile(db: Database, actor: Id, req: ProfileRequest, key: Option<IdParam>)
    returns (r: Response<Option<Doc<ProfileFields>>>)
    requires db.Valid()
    modifies db
    ensures db.Valid()
    ensures db.users == old(db.users) && db.posts == old(db.posts)
    ensures ProfileErrors(req) != [] ==> r == Error(400, ProfileErrors(req)) && unchanged(db)
    ensures var u := UpsertOutcome(old(db.profiles), old(db.nextId), actor, req, key);
            r == u.reply && db.profiles == u.profiles
    ensures db.nextId == if |db.profiles| == |old(db.profiles)| then old(db.nextId) else old(db.nextId) + 1
  {
    var errors := ProfileErrors(req);
    if errors != [] {
      return Error(400, errors);
    }
    var built := BuildProfile(actor, req);
    var existing: Option<nat>;
    match key {
      case None =>
        existing := None;
      case Some(Malformed(_)) =>
        return Error(500, [ServerError]);
      case Some(ObjectId(id)) =>
        existing := FirstMatch(db.profiles, OwnedBy(id));
    }
    if existing.None? {
      var doc := db.InsertProfile(built);
      return Ok(Some(doc));
    }
    var mine := FirstMatch(db.profiles, OwnedBy(actor));
    if mine.None? {
      return Ok(None);
    }
    var i := mine.value;
    var doc := db.ReplaceProfile(i, ApplySet(db.profiles[i].body, built));
    r := Ok(Some(doc));
  }

  /** `POST /api/profile` as written: the existence test is keyed on the body's `id` field. */
  method UpsertAsWritten(db: Database, actor: Id, req: ProfileRequest)
    returns (r: Response<Option<Doc<ProfileFields>>>)
    requires db.Valid()
    modifies db
    ensures db.Valid()
    ensures db.users == old(db.users) && db.posts == old(db.posts)
    ensures var u := UpsertOutcome(old(db.profiles), old(db.nextId), actor, req, req.id);
            r == u.reply && db.profiles == u.profiles
  {
    r := SaveProfile(db, actor, req, req.id);
  }

  /** `POST /api/profile` with the existence test keyed on the actor, as the update already is. */
  method Upsert(db: Database, actor: Id, req: ProfileRequest)
    returns (r: Response<Option<Doc<ProfileFields>>>)
    requires db.Valid()
    modifies db
    ensures db.Valid()
    ensures db.users == old(db.users) && db.posts == old(db.posts)
    ensures var u := UpsertOutcome(old(db.profiles), old(db.nextId), actor, req, Some(ObjectId(actor)));
            r == u.reply && db.profiles == u.profiles
    ensures OneProfilePerUser(old(db.profiles)) ==> OneProfilePerUser(db.profiles)
    ensures ProfileErrors(req) == [] ==> HasProfile(db.profiles, actor)
  {
    UpsertKeepsOneProfilePerUser(old(db.profiles), old(db.nextId), actor, req);
    r := SaveProfile(db, actor, req, Some(ObjectId(actor)));
  }

  /**
    Keyed on the actor, a valid upsert leaves the actor with a profile, and
    it never gives an account a second profile.
   */
  lemma UpsertKeepsOneProfilePerUser(profiles: seq<Doc<ProfileFields>>, newId: Id, actor: Id, req: ProfileRequest)
    ensures var u := UpsertOutcome(profiles, newId, actor, req, Some(ObjectId(actor)));
            && (OneProfilePerUser(profiles) ==> OneProfilePerUser(u.profiles))
            && (ProfileErrors(req) == [] ==> HasProfile(u.profiles, actor))
  {
    var u := UpsertOutcome(profiles, newId, actor, req, Some(ObjectId(actor)));
    if ProfileErrors(req) == [] {
      var built := BuildProfile(actor, req);
      match FirstMatch(profiles, OwnedBy(actor))
      case None =>
        assert u.profiles == profiles + [Doc(newId, built)];
        assert u.profiles[|profiles|].body.user == actor;
      case Some(i) =>
        assert OwnedBy(actor)(profiles[i]);
        assert u.profiles[i].body.user == actor;
        assert forall k :: 0 <= k < |u.profiles| ==> u.profiles[k].body.user == profiles[k].body.user;
    }
  }

  /**
    Keyed on the actor, repeating an upsert with the same request changes
    nothing more: the second call finds the profile the first one left and
    sets the same values onto it.
   */
  lemma UpsertTwiceIsOnce(profiles: seq<Doc<ProfileFields>>, newId: Id, later: Id, actor: Id, req: ProfileRequest)
    ensures var key := Some(ObjectId(actor));
            var once := UpsertOutcome(profiles, newId, actor, req, key);
            UpsertOutcome(once.profiles, later, actor, req, key) == once
  {
    var key := Some(ObjectId(actor));
    var once := UpsertOutcome(profiles, newId, actor, req, key);
    if ProfileErrors(req) == [] {
      var built := BuildProfile(actor, req);
      ApplySetIdempotent(built, built);
      match FirstMatch(profiles, OwnedBy(actor))
      case None =>
        var doc := Doc(newId, built);
        assert once.profiles == profiles + [doc];
        FirstMatchAt(once.profiles, OwnedBy(actor), |profiles|);
        assert once.profiles[|profiles| := doc] == once.profiles;
      case Some(i) =>
        var doc := Doc(profiles[i].id, ApplySet(profiles[i].body, built));
        ApplySetIdempotent(profiles[i].body, built);
        assert once.profiles == profiles[i := doc];
        FirstMatchAt(once.profiles, OwnedBy(actor), i);
        assert once.profiles[i := doc] == once.profiles;
    }
  }

  /** A valid request used by the two lemmas below. */
  function SampleRequest(id: Option<IdParam>): ProfileRequest
  {
    ProfileRequest("", "", "", "", "Developer", "", "Dafny", "", "", "", "", "", id)
  }

  /** A stored profile of `user` used by the two lemmas below. */
  function SampleProfile(user: Id): ProfileFields
  {
    ProfileFields(user, None, None, None, None, Some("Developer"), None, Some(["Dafny"]), Social(None, None, None, None, None))
  }

  /**
    As written, a request without an `id` field matches no profile, so an
    account that already has a profile is given a second one.
   */
  lemma AsWrittenDuplicatesProfile()
    ensures var req := SampleRequest(None);
            var profiles := [Doc(0, SampleProfile(7))];
            var u := UpsertOutcome(profiles, 1, 7, req, req.id);
            && OneProfilePerUser(profiles)
            && |u.profiles| == 2 && u.profiles[0].body.user == 7 && u.profiles[1].body.user == 7
            && !OneProfilePerUser(u.profiles)
  {
  }

  /**
    As written, a request whose `id` names another account's profile takes
    the update path; an actor without a profile then gets a `null` reply
    and no profile.
   */
  lemma AsWrittenSkipsNewProfile()
    ensures var req := SampleRequest(Some(ObjectId(8)));
            var profiles := [Doc(0, SampleProfile(8))];
            var u := UpsertOutcome(profiles, 1, 7, req, req.id);
            && u == Upserted(Ok(None), profiles)
            && !HasProfile(u.profiles, 7)
  {
  }

  /** `GET /api/profile/me`. */
  method GetMyProfile(db: Database, actor: Id) returns (r: Response<Doc<ProfileFields>>)
    ensures r.Error? ==> r == Error(400, [NoProfileForActor])
    ensures r.Ok? <==> HasProfile(db.profiles, actor)
    ensures r.Ok? ==> r.body in db.profiles && r.body.body.user == actor
    ensures r.Ok? ==> r.body == db.profiles[FirstMatch(db.profiles, OwnedBy(actor)).value]
  {
    var found := FirstMatch(db.profiles, OwnedBy(actor));
    if found.None? {
      return Error(400, [NoProfileForActor]);
    }
    r := Ok(db.profiles[found.value]);
  }

  /** `GET /api/profile/user/:user_id`: an absent profile and a malformed id get the same 400. */
  method GetProfileByUser(db: Database, param: IdParam) returns (r: Response<Doc<ProfileFields>>)
    ensures r.Error? ==> r == Error(400, [NoProfileForUserId])
    ensures r.Ok? <==> param.ObjectId? && HasProfile(db.profiles, param.id)
    ensures r.Ok? ==> r.body in db.profiles && r.body.body.user == param.id
    ensures r.Ok? ==> r.body == db.profiles[FirstMatch(db.profiles, OwnedBy(param.id)).value]
  {
    match param {
      case Malformed(_) =>
        r := Error(400, [NoProfileForUserId]);
      case ObjectId(user) =>
        var found := FirstMatch(db.profiles, OwnedBy(user));
        if found.None? {
          r := Error(400, [NoProfileForUserId]);
        } else {
          r := Ok(db.profiles[found.value]);
        }
    }
  }
}
