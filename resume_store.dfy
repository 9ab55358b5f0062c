/**
 * The resume handlers of the backend (`getUserResumes`, `getResume`,
 * `createResume`, `updateResume`, `deleteResume`) over an in-memory table.
 * The table is a map from row id to record; the store hands out ids in
 * insertion order, so the `by_user` index read in descending order lists a
 * user's rows newest-created first, which here is descending id. The
 * authenticated user is a parameter (`None` when nobody is signed in), and so
 * is the clock.
 */
module ResumeStore {
  import opened Wrappers
  import opened Schema

  datatype StoreError = NotAuthenticated | NotFoundOrAccessDenied

  /** The text of the error each handler throws. */
  function Message(e: StoreError): string {
    match e
    case NotAuthenticated => "Not authenticated"
    case NotFoundOrAccessDenied => "Resume not found or access denied"
  }

  type Rows = map<ResumeId, Resume>

  predicate Owns(rows: Rows, user: UserId, id: ResumeId) {
    id in rows && rows[id].userId == user
  }

  /** The check `getResume`, `updateResume` and `deleteResume` run first: the
      caller must be signed in, and the row must exist and be theirs. */
  function Authorize(rows: Rows, caller: Option<UserId>, id: ResumeId): (r: Result<Resume, StoreError>)
    ensures caller.None? ==> r == Failure(NotAuthenticated)
    ensures caller.Some? && !Owns(rows, caller.value, id) ==> r == Failure(NotFoundOrAccessDenied)
    ensures r.Success? <==> caller.Some? && Owns(rows, caller.value, id)
    ensures r.Success? ==> r.value == rows[id]
  {
    match caller
    case None => Failure(NotAuthenticated)
    case Some(user) =>
      if id !in rows || rows[id].userId != user then Failure(NotFoundOrAccessDenied)
      else Success(rows[id])
  }

  /** The record `createResume` inserts. */
  function NewResume(owner: UserId, title: string, templateId: string, now: nat): (r: Resume)
    ensures r.userId == owner && r.title == title && r.templateId == templateId && !r.isPublic
    ensures r.personalInfo.fullName == "" && r.personalInfo.email == "" && r.personalInfo.phone == "" && r.personalInfo.location == ""
    ensures r.experience == [] && r.education == [] && r.skills == [] && r.projects == [] &&
            r.certifications == [] && r.languages == []
    ensures r.lastModified == now
  {
    Resume(
      owner, title, templateId,
      PersonalInfo("", "", "", "", None, None, None, None),
      [], [], [], [], [], [],
      false, now)
  }

  /** The record holds `u`'s value under key `k`. */
  predicate Holds(r: Resume, u: Updates, k: UpdateKey)
    requires k in Keys(u)
  {
    match k
    case TitleKey => r.title == u.title.value
    case PersonalInfoKey => r.personalInfo == u.personalInfo.value
    case ExperienceKey => r.experience == u.experience.value
    case EducationKey => r.education == u.education.value
    case SkillsKey => r.skills == u.skills.value
    case ProjectsKey => r.projects == u.projects.value
    case CertificationsKey => r.certifications == u.certifications.value
    case LanguagesKey => r.languages == u.languages.value
  }

  /** The two records agree under key `k`. */
  predicate SameAt(a: Resume, b: Resume, k: UpdateKey) {
    match k
    case TitleKey => a.title == b.title
    case PersonalInfoKey => a.personalInfo == b.personalInfo
    case ExperienceKey => a.experience == b.experience
    case EducationKey => a.education == b.education
    case SkillsKey => a.skills == b.skills
    case ProjectsKey => a.projects == b.projects
    case CertificationsKey => a.certifications == b.certifications
    case LanguagesKey => a.languages == b.languages
  }

  /** The patch `updateResume` applies: `{...updates, lastModified: now}`.
      Every key present in `updates` is overwritten, every absent key is
      kept, the owner, template and visibility never change, and
      `lastModified` becomes `now`. */
  function Patch(r: Resume, u: Updates, now: nat): (p: Resume)
    ensures forall k :: k in Keys(u) ==> Holds(p, u, k)
    ensures forall k :: k !in Keys(u) ==> SameAt(p, r, k)
    ensures p.userId == r.userId && p.templateId == r.templateId && p.isPublic == r.isPublic
    ensures p.lastModified == now
  {
    r.(
      title := u.title.GetOr(r.title),
      personalInfo := u.personalInfo.GetOr(r.personalInfo),
      experience := u.experience.GetOr(r.experience),
      education := u.education.GetOr(r.education),
      skills := u.skills.GetOr(r.skills),
      projects := u.projects.GetOr(r.projects),
      certifications := u.certifications.GetOr(r.certifications),
      languages := u.languages.GetOr(r.languages),
      lastModified := now)
  }

  /** Two updates applied one after the other: a key of the later one wins. */
  function Merge(first: Updates, later: Updates): (m: Updates)
    ensures forall k :: Present(m, k) <==> Present(first, k) || Present(later, k)
  {
    var m := Updates(
      if later.title.Some? then later.title else first.title,
      if later.personalInfo.Some? then later.personalInfo else first.personalInfo,
      if later.experience.Some? then later.experience else first.experience,
      if later.education.Some? then later.education else first.education,
      if later.skills.Some? then later.skills else first.skills,
      if later.projects.Some? then later.projects else first.projects,
      if later.certifications.Some? then later.certifications else first.certifications,
      if later.languages.Some? then later.languages else first.languages);
    m
  }

  /** An empty `updates` object changes nothing but `lastModified`. */
  lemma PatchEmpty(r: Resume, now: nat)
    ensures Patch(r, NoUpdates, now) == r.(lastModified := now)
  {
  }

  /** Patching twice is patching once with the merged updates and the later time. */
  lemma PatchTwice(r: Resume, u1: Updates, t1: nat, u2: Updates, t2: nat)
    ensures Patch(Patch(r, u1, t1), u2, t2) == Patch(r, Merge(u1, u2), t2)
  {
  }

  /** Re-sending the same update changes only the timestamp. */
  lemma PatchIdempotent(r: Resume, u: Updates, t1: nat, t2: nat)
    ensures Patch(Patch(r, u, t1), u, t2) == Patch(r, u, t2)
  {
  }

  /** The caller's rows with ids below `bound`, newest-created first. */
  function Listing(rows: Rows, owner: UserId, bound: nat): (r: seq<(ResumeId, Resume)>)
    decreases bound
  {
    if bound == 0 then []
    else
      var id := bound - 1;
      (if Owns(rows, owner, id) then [(id, rows[id])] else []) + Listing(rows, owner, id)
  }

  /** Every entry of the listing is a row of the owner, below the bound, as stored. */
  lemma {:induction false} ListingSound(rows: Rows, owner: UserId, bound: nat)
    ensures forall i :: 0 <= i < |Listing(rows, owner, bound)| ==>
              var e := Listing(rows, owner, bound)[i];
              e.0 < bound && Owns(rows, owner, e.0) && e.1 == rows[e.0]
    decreases bound
  {
    if bound > 0 {
      ListingSound(rows, owner, bound - 1);
    }
  }

  /** The ids of the listing strictly decrease. */
  lemma {:induction false} ListingOrdered(rows: Rows, owner: UserId, bound: nat)
    ensures forall i, j :: 0 <= i < j < |Listing(rows, owner, bound)| ==>
              Listing(rows, owner, bound)[i].0 > Listing(rows, owner, bound)[j].0
    decreases bound
  {
    if bound > 0 {
      ListingSound(rows, owner, bound - 1);
      ListingOrdered(rows, owner, bound - 1);
    }
  }

  /** Every row of the owner below the bound is in the listing. */
  lemma {:induction false} ListingComplete(rows: Rows, owner: UserId, bound: nat, id: ResumeId)
    requires id < bound && Owns(rows, owner, id)
    ensures (id, rows[id]) in Listing(rows, owner, bound)
    decreases bound
  {
    if id < bound - 1 {
      ListingComplete(rows, owner, bound - 1, id);
    }
  }

  lemma ListingCompleteAll(rows: Rows, owner: UserId, bound: nat)
    ensures forall id: ResumeId :: id < bound && Owns(rows, owner, id) ==> (id, rows[id]) in Listing(rows, owner, bound)
  {
    forall id: ResumeId | id < bound && Owns(rows, owner, id)
      ensures (id, rows[id]) in Listing(rows, owner, bound)
    {
      ListingComplete(rows, owner, bound, id);
    }
  }

  /** Only rows below the bound matter to the listing. */
  lemma {:induction false} ListingIgnoresAbove(rows: Rows, owner: UserId, bound: nat, id: ResumeId, x: Resume)
    requires id >= bound
    ensures Listing(rows[id := x], owner, bound) == Listing(rows, owner, bound)
    ensures Listing(rows - {id}, owner, bound) == Listing(rows, owner, bound)
    decreases bound
  {
    if bound > 0 {
      ListingIgnoresAbove(rows, owner, bound - 1, id, x);
    }
  }

  /** The ids of a listing, in its order. */
  function Ids(l: seq<(ResumeId, Resume)>): (r: seq<ResumeId>)
    ensures |r| == |l| && forall i :: 0 <= i < |l| ==> r[i] == l[i].0
  {
    if l == [] then [] else [l[0].0] + Ids(l[1..])
  }

  lemma IdsCons(h: (ResumeId, Resume), l: seq<(ResumeId, Resume)>)
    ensures Ids([h] + l) == [h.0] + Ids(l)
  {
    assert ([h] + l)[1..] == l;
  }

  /** Replacing one row by a record with the same owner keeps every row of the
      listing in its place: the order is by creation, not by `lastModified`. */
  lemma {:induction false} ListingAfterReplace(rows: Rows, owner: UserId, bound: nat, id: ResumeId, x: Resume)
    requires id in rows && x.userId == rows[id].userId
    ensures Ids(Listing(rows[id := x], owner, bound)) == Ids(Listing(rows, owner, bound))
    decreases bound
  {
    if bound > 0 {
      var top := bound - 1;
      ListingAfterReplace(rows, owner, top, id, x);
      var after := rows[id := x];
      assert Owns(after, owner, top) <==> Owns(rows, owner, top);
      if Owns(rows, owner, top) {
        IdsCons((top, after[top]), Listing(after, owner, top));
        IdsCons((top, rows[top]), Listing(rows, owner, top));
      }
    }
  }

  /** A listing without the entry for `id`, the others kept in order. */
  function Without(l: seq<(ResumeId, Resume)>, id: ResumeId): seq<(ResumeId, Resume)> {
    if l == [] then []
    else (if l[0].0 == id then [] else [l[0]]) + Without(l[1..], id)
  }

  /** Deleting a row removes exactly its entry from the listing and keeps the
      others in order. */
  lemma {:induction false} ListingAfterDelete(rows: Rows, owner: UserId, bound: nat, id: ResumeId)
    ensures Listing(rows - {id}, owner, bound) == Without(Listing(rows, owner, bound), id)
    decreases bound
  {
    if bound > 0 {
      var top := bound - 1;
      ListingAfterDelete(rows, owner, top, id);
      var l := Listing(rows, owner, top);
      var rest := rows - {id};
      assert Owns(rest, owner, top) <==> Owns(rows, owner, top) && top != id;
      assert Listing(rest, owner, bound) ==
             (if Owns(rest, owner, top) then [(top, rest[top])] else []) + Listing(rest, owner, top);
      if Owns(rows, owner, top) {
        var x := (top, rows[top]);
        assert Listing(rows, owner, bound) == [x] + l;
        assert ([x] + l)[0] == x && ([x] + l)[1..] == l;
        assert Without([x] + l, id) == (if top == id then [] else [x]) + Without(l, id);
      } else {
        assert Listing(rows, owner, bound) == l;
      }
    }
  }

  /** The table of resumes. */
  class ResumeTable {
    var rows: Rows
    var nextId: ResumeId

    ghost predicate Valid()
      reads this
    {
      forall id :: id in rows ==> id < nextId
    }

    constructor ()
      ensures Valid() && rows == map[] && nextId == 0
    {
      rows := map[];
      nextId := 0;
    }

    /** `getUserResumes`: exactly the caller's rows, newest-created first. */
    function GetUserResumes(caller: Option<UserId>): (r: Result<seq<(ResumeId, Resume)>, StoreError>)
      reads this
      requires Valid()
      ensures caller.None? <==> r == Failure(NotAuthenticated)
      ensures r.Success? ==>
                (forall i :: 0 <= i < |r.value| ==> Owns(rows, caller.value, r.value[i].0) && r.value[i].1 == rows[r.value[i].0]) &&
                (forall i, j :: 0 <= i < j < |r.value| ==> r.value[i].0 > r.value[j].0) &&
                (forall id: ResumeId :: Owns(rows, caller.value, id) ==> (id, rows[id]) in r.value)
    {
      match caller
      case None => Failure(NotAuthenticated)
      case Some(user) =>
        ListingSound(rows, user, nextId);
        ListingOrdered(rows, user, nextId);
        ListingCompleteAll(rows, user, nextId);
        Success(Listing(rows, user, nextId))
    }

    /** `getResume`: the row, to its owner only. */
    function GetResume(caller: Option<UserId>, id: ResumeId): (r: Result<Resume, StoreError>)
      reads this
      ensures r.Success? <==> caller.Some? && Owns(rows, caller.value, id)
      ensures r.Success? ==> r.value == rows[id]
      ensures caller.None? ==> r == Failure(NotAuthenticated)
      ensures caller.Some? && !Owns(rows, caller.value, id) ==> r == Failure(NotFoundOrAccessDenied)
    {
      Authorize(rows, caller, id)
    }

    /** `createResume`: inserts one blank record owned by the caller under a
        fresh id and returns that id; it heads the caller's listing. */
    method CreateResume(caller: Option<UserId>, title: string, templateId: string, now: nat)
      returns (r: Result<ResumeId, StoreError>)
      requires Valid()
      modifies this
      ensures Valid()
      ensures caller.None? ==> r == Failure(NotAuthenticated) && rows == old(rows) && nextId == old(nextId)
      ensures caller.Some? ==>
                r == Success(old(nextId)) && old(nextId) !in old(rows) &&
                rows == old(rows)[old(nextId) := NewResume(caller.value, title, templateId, now)] &&
                nextId == old(nextId) + 1
      ensures caller.Some? ==>
                GetUserResumes(caller) ==
                Success([(old(nextId), NewResume(caller.value, title, templateId, now))] + old(GetUserResumes(caller)).value)
    {
      if caller.None? {
        return Failure(NotAuthenticated);
      }
      var id := nextId;
      var record := NewResume(caller.value, title, templateId, now);
      ListingIgnoresAbove(rows, caller.value, id, id, record);
      rows := rows[id := record];
      nextId := id + 1;
      r := Success(id);
    }

    /** `updateResume`: on the caller's own row, applies `Patch`; otherwise
        throws and leaves the table as it was. */
    method UpdateResume(caller: Option<UserId>, id: ResumeId, updates: Updates, now: nat)
      returns (r: Result<(), StoreError>)
      requires Valid()
      modifies this
      ensures Valid() && nextId == old(nextId)
      ensures caller.None? ==> r == Failure(NotAuthenticated)
      ensures r.Success? <==> caller.Some? && Owns(old(rows), caller.value, id)
      ensures r.Success? ==> rows == old(rows)[id := Patch(old(rows)[id], updates, now)]
      ensures r.Failure? ==> r.error == Authorize(old(rows), caller, id).error && rows == old(rows)
    {
      var check := Authorize(rows, caller, id);
      if check.Failure? {
        return Failure(check.error);
      }
      rows := rows[id := Patch(check.value, updates, now)];
      r := Success(());
    }

    /** `deleteResume`: removes the caller's own row and no other. */
    method DeleteResume(caller: Option<UserId>, id: ResumeId) returns (r: Result<(), StoreError>)
      requires Valid()
      modifies this
      ensures Valid() && nextId == old(nextId)
      ensures caller.None? ==> r == Failure(NotAuthenticated)
      ensures r.Success? <==> caller.Some? && Owns(old(rows), caller.value, id)
      ensures r.Success? ==> rows == old(rows) - {id}
      ensures r.Failure? ==> r.error == Authorize(old(rows), caller, id).error && rows == old(rows)
    {
      var check := Authorize(rows, caller, id);
      if check.Failure? {
        return Failure(check.error);
      }
      rows := rows - {id};
      r := Success(());
    }
  }
}
