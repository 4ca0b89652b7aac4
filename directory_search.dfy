/** The public directory search (`GET /api/directory/search`): published CV
    rows are joined with applicant profiles and user rows by user id, kept when
    four filters all pass, and projected to the listing's result records. The
    three database reads are inputs, each of which may have failed. */
module DirectorySearch {
  import opened Wrappers
  import opened Lists
  import opened Text

  /** The parts of a stored CV's untyped `content` the search reads; each may be absent. */
  datatype CvContent = CvContent(fullName: Option<string>, headline: Option<string>, skills: Option<seq<string>>)

  /** A row of `cvs`. */
  datatype CvRow = CvRow(id: string, userId: string, status: string, content: CvContent)

  /** A row of `applicant_profiles`; the nullable columns are options. */
  datatype ProfileRow = ProfileRow(id: string, userId: string, location: Option<string>, yearsExperience: Option<int>)

  /** A row of `users`. */
  datatype UserRow = UserRow(id: string, fullName: Option<string>)

  /** The request's query parameters, absent ones as `None`. */
  datatype QueryParams = QueryParams(search: Option<string>, location: Option<string>,
                                     minExperience: Option<string>, skills: Option<string>)

  /** The criteria after defaulting; `minExperience == None` is `NaN`. */
  datatype Criteria = Criteria(search: string, location: string, minExperience: Option<int>, skills: string)

  /** One entry of the listing. `id` is the profile id, taken through an
      optional lookup as the code does. */
  datatype DirectoryResult = DirectoryResult(id: Option<string>, fullName: string, headline: string,
                                             location: string, yearsExperience: int, skills: seq<string>,
                                             cvId: string, bookmarked: bool)

  datatype SearchResponse = Applicants(applicants: seq<DirectoryResult>) | Failed(error: string)

  function Status(r: SearchResponse): int
  {
    if r.Applicants? then 200 else 500
  }

  /** JavaScript's `v || d` on a string that may be absent: absent and empty both give `d`. */
  function OrDefault(v: Option<string>, d: string): string
  {
    if v.Some? && v.value != "" then v.value else d
  }

  /** The criteria the route reads off its query parameters. */
  function ReadCriteria(q: QueryParams): Criteria
  {
    Criteria(OrDefault(q.search, ""), OrDefault(q.location, ""),
             ParseInt(OrDefault(q.minExperience, "0")), OrDefault(q.skills, ""))
  }

  /** With no parameter given every criterion is at its neutral default. */
  lemma ReadCriteriaDefaults()
    ensures ReadCriteria(QueryParams(None, None, None, None)) == Criteria("", "", Some(0), "")
  {
    ParseIntDecimal(0);
    assert DecimalString(0) == "0";
  }

  /** The rows of the CV table the route asks for (`.eq("status", "published")`). */
  function PublishedQuery(table: seq<CvRow>): seq<CvRow>
  {
    Filter(table, (cv: CvRow) => cv.status == "published")
  }

  // ---------------------------------------------------------------- the filters

  /** The lowercased CV-content name the free-text filter searches. */
  function NameText(cv: CvRow): string
  {
    ToLower(cv.content.fullName.GetOr(""))
  }

  /** The CV's skills joined by single spaces and lowercased. */
  function SkillsText(cv: CvRow): string
  {
    ToLower(Join(cv.content.skills.GetOr([]), " "))
  }

  predicate MatchesText(search: string, cv: CvRow)
  {
    search == ""
    || Includes(NameText(cv), ToLower(search))
    || Includes(SkillsText(cv), ToLower(search))
  }

  predicate MatchesLocation(location: string, p: ProfileRow)
  {
    location == "" || (p.location.Some? && ToLower(p.location.value) == ToLower(location))
  }

  /** The `years_experience` column as `<` reads it: `null` is 0. */
  function Years(p: ProfileRow): int
  {
    p.yearsExperience.GetOr(0)
  }

  /** `!(years < min)`; every comparison with `NaN` is false, so `NaN` excludes nobody. */
  predicate MeetsExperience(minExperience: Option<int>, p: ProfileRow)
  {
    match minExperience
    case None => true
    case Some(m) => !(Years(p) < m)
  }

  /** One requested skill as the route normalises it. */
  function SkillToken(t: string): string
  {
    ToLower(Trim(t))
  }

  /** `skills.split(",").map(s => s.trim().toLowerCase())`. */
  function RequiredSkills(csv: string): seq<string>
  {
    Map(Split(csv, ','), SkillToken)
  }

  /** The CV's skills, lowercased; none when the content has no skills. */
  function ApplicantSkills(cv: CvRow): seq<string>
  {
    Map(cv.content.skills.GetOr([]), ToLower)
  }

  predicate HasAnySkill(csv: string, cv: CvRow)
  {
    csv == "" || exists t :: t in RequiredSkills(csv) && t in ApplicantSkills(cv)
  }

  /** The four filters, as they apply to a CV whose author has profile `p`. */
  predicate PassesFilters(c: Criteria, p: ProfileRow, cv: CvRow)
  {
    && MatchesText(c.search, cv)
    && MatchesLocation(c.location, p)
    && MeetsExperience(c.minExperience, p)
    && HasAnySkill(c.skills, cv)
  }

  function ProfileKey(p: ProfileRow): string { p.userId }

  function UserKey(u: UserRow): string { u.id }

  /** `profileMap`: profiles by user id, the last row of a user winning. */
  function ProfileMap(profiles: seq<ProfileRow>): map<string, ProfileRow>
  {
    IndexBy(profiles, ProfileKey)
  }

  /** `userMap`: users by id, the last row winning. */
  function UserMap(users: seq<UserRow>): map<string, UserRow>
  {
    IndexBy(users, UserKey)
  }

  /** The `filter` callback: the author has a profile and all four filters pass. */
  predicate Keep(c: Criteria, pm: map<string, ProfileRow>, cv: CvRow)
  {
    cv.userId in pm && PassesFilters(c, pm[cv.userId], cv)
  }

  function Keeper(c: Criteria, pm: map<string, ProfileRow>): CvRow -> bool
  {
    cv => Keep(c, pm, cv)
  }

  /** The `map` callback. */
  function Project(cv: CvRow, pm: map<string, ProfileRow>, um: map<string, UserRow>): DirectoryResult
  {
    var profile := if cv.userId in pm then Some(pm[cv.userId]) else None;
    var user := if cv.userId in um then Some(um[cv.userId]) else None;
    DirectoryResult(
      id := if profile.Some? then Some(profile.value.id) else None,
      fullName := if user.Some? then OrDefault(user.value.fullName, "Unknown") else "Unknown",
      headline := OrDefault(cv.content.headline, ""),
      location := if profile.Some? then OrDefault(profile.value.location, "") else "",
      yearsExperience := if profile.Some? && profile.value.yearsExperience.Some? then profile.value.yearsExperience.value else 0,
      skills := cv.content.skills.GetOr([]),
      cvId := cv.id,
      bookmarked := false)
  }

  function Projector(pm: map<string, ProfileRow>, um: map<string, UserRow>): CvRow -> DirectoryResult
  {
    cv => Project(cv, pm, um)
  }

  /** The join, filter and projection over fetched rows. */
  function Results(c: Criteria, cvs: seq<CvRow>, profiles: seq<ProfileRow>, users: seq<UserRow>): seq<DirectoryResult>
  {
    var pm, um := ProfileMap(profiles), UserMap(users);
    Map(Filter(cvs, Keeper(c, pm)), Projector(pm, um))
  }

  /** The whole route: any failed read gives a 500 and no applicants at all. */
  function Search(q: QueryParams, cvs: Result<seq<CvRow>, string>, profiles: Result<seq<ProfileRow>, string>,
                  users: Result<seq<UserRow>, string>): (r: SearchResponse)
    ensures r.Failed? <==> cvs.Err? || profiles.Err? || users.Err?
    ensures r.Failed? ==> r.error == "Failed to search applicants" && Status(r) == 500
    ensures r.Applicants? ==> |r.applicants| <= |cvs.value|
    ensures r.Applicants? ==> r.applicants == Results(ReadCriteria(q), cvs.value, profiles.value, users.value)
  {
    if cvs.Err? || profiles.Err? || users.Err? then Failed("Failed to search applicants")
    else Applicants(Results(ReadCriteria(q), cvs.value, profiles.value, users.value))
  }

  // ---------------------------------------------------------------- properties

  /** Results of a concatenation are the concatenated results: the output keeps
      the input order of the CVs. */
  lemma SearchConcat(c: Criteria, a: seq<CvRow>, b: seq<CvRow>, profiles: seq<ProfileRow>, users: seq<UserRow>)
    ensures Results(c, a + b, profiles, users) == Results(c, a, profiles, users) + Results(c, b, profiles, users)
  {
    var pm, um := ProfileMap(profiles), UserMap(users);
    FilterConcat(a, b, Keeper(c, pm));
  }

  /** A single CV yields exactly one result when kept and none otherwise; with
      SearchConcat this determines the whole output. */
  lemma SearchSingle(c: Criteria, cv: CvRow, profiles: seq<ProfileRow>, users: seq<UserRow>)
    ensures var pm := ProfileMap(profiles);
      Results(c, [cv], profiles, users)
      == if Keep(c, pm, cv) then [Project(cv, pm, UserMap(users))] else []
  {
    assert [cv][1..] == [];
  }

  /** Every result is the projection of a kept input CV. */
  lemma SearchSound(c: Criteria, cvs: seq<CvRow>, profiles: seq<ProfileRow>, users: seq<UserRow>, k: nat)
    requires k < |Results(c, cvs, profiles, users)|
    ensures var pm := ProfileMap(profiles);
      exists cv :: cv in cvs && Keep(c, pm, cv) && Results(c, cvs, profiles, users)[k] == Project(cv, pm, UserMap(users))
  {
    var pm := ProfileMap(profiles);
    var kept := Filter(cvs, Keeper(c, pm));
    assert kept[k] in kept;
  }

  /** Every kept input CV is in the output. */
  lemma SearchComplete(c: Criteria, cvs: seq<CvRow>, profiles: seq<ProfileRow>, users: seq<UserRow>, cv: CvRow)
    requires cv in cvs && Keep(c, ProfileMap(profiles), cv)
    ensures Project(cv, ProfileMap(profiles), UserMap(users)) in Results(c, cvs, profiles, users)
  {
    var pm := ProfileMap(profiles);
    var kept := Filter(cvs, Keeper(c, pm));
    FilterMember(cvs, Keeper(c, pm), cv);
    var i :| 0 <= i < |kept| && kept[i] == cv;
    assert Results(c, cvs, profiles, users)[i] == Project(cv, pm, UserMap(users));
  }

  /** A CV whose author has no profile is dropped, silently: wherever it
      stands among the CVs, the listing is the one the other CVs give. */
  lemma NoProfileDropped(c: Criteria, a: seq<CvRow>, cv: CvRow, b: seq<CvRow>, profiles: seq<ProfileRow>, users: seq<UserRow>)
    requires forall i :: 0 <= i < |profiles| ==> profiles[i].userId != cv.userId
    ensures Results(c, [cv], profiles, users) == []
    ensures Results(c, a + [cv] + b, profiles, users) == Results(c, a + b, profiles, users)
  {
    SearchSingle(c, cv, profiles, users);
    var ra, rb := Results(c, a, profiles, users), Results(c, b, profiles, users);
    SearchConcat(c, a, [cv], profiles, users);
    assert Results(c, a + [cv], profiles, users) == ra + [] == ra;
    SearchConcat(c, a + [cv], b, profiles, users);
    SearchConcat(c, a, b, profiles, users);
  }

  /** When several profiles share a user id the last one decides both the
      filters and the projected profile fields. */
  lemma LastProfileWins(c: Criteria, cv: CvRow, profiles: seq<ProfileRow>, users: seq<UserRow>, i: nat)
    requires i < |profiles| && profiles[i].userId == cv.userId
    requires forall j :: i < j < |profiles| ==> profiles[j].userId != cv.userId
    ensures var p := profiles[i];
      Keep(c, ProfileMap(profiles), cv) == PassesFilters(c, p, cv)
      && Project(cv, ProfileMap(profiles), UserMap(users)).id == Some(p.id)
      && Project(cv, ProfileMap(profiles), UserMap(users)).location == OrDefault(p.location, "")
      && Project(cv, ProfileMap(profiles), UserMap(users)).yearsExperience == p.yearsExperience.GetOr(0)
  {
    IndexByLast(profiles, ProfileKey, i);
  }

  /** The projected name comes from the `users` table, else "Unknown"; it is
      never the CV-content name the free-text filter looks at. */
  lemma ProjectedName(cv: CvRow, pm: map<string, ProfileRow>, users: seq<UserRow>)
    ensures var name := Project(cv, pm, UserMap(users)).fullName;
      && (!(exists j :: 0 <= j < |users| && users[j].id == cv.userId) ==> name == "Unknown")
      && (forall j :: 0 <= j < |users| && users[j].id == cv.userId
            && (forall l :: j < l < |users| ==> users[l].id != cv.userId)
            ==> name == OrDefault(users[j].fullName, "Unknown"))
  {
    forall j | 0 <= j < |users| && users[j].id == cv.userId && (forall l :: j < l < |users| ==> users[l].id != cv.userId)
      ensures Project(cv, pm, UserMap(users)).fullName == OrDefault(users[j].fullName, "Unknown")
    {
      IndexByLast(users, UserKey, j);
    }
  }

  /** Every result carries a profile id, a non-empty name and `bookmarked == false`. */
  lemma ResultsShape(c: Criteria, cvs: seq<CvRow>, profiles: seq<ProfileRow>, users: seq<UserRow>)
    ensures forall r :: r in Results(c, cvs, profiles, users) ==> r.id.Some? && r.fullName != "" && !r.bookmarked
  {
    var pm, um := ProfileMap(profiles), UserMap(users);
    var kept := Filter(cvs, Keeper(c, pm));
    forall r | r in Results(c, cvs, profiles, users)
      ensures r.id.Some? && r.fullName != "" && !r.bookmarked
    {
      var k :| 0 <= k < |kept| && r == Project(kept[k], pm, um);
      assert kept[k] in kept;
    }
  }

  /** Each result's `cvId` is the id of an input CV, and with the route's own
      query that CV is published. */
  lemma OnlyPublished(c: Criteria, table: seq<CvRow>, profiles: seq<ProfileRow>, users: seq<UserRow>)
    ensures forall r :: r in Results(c, PublishedQuery(table), profiles, users) ==>
      exists cv :: cv in table && cv.status == "published" && cv.id == r.cvId
  {
    var cvs := PublishedQuery(table);
    var pm, um := ProfileMap(profiles), UserMap(users);
    var kept := Filter(cvs, Keeper(c, pm));
    forall r | r in Results(c, cvs, profiles, users)
      ensures exists cv :: cv in table && cv.status == "published" && cv.id == r.cvId
    {
      var k :| 0 <= k < |kept| && r == Project(kept[k], pm, um);
      assert kept[k] in kept;
      assert kept[k] in cvs;
    }
  }

  /** The route fetches only the profiles and users of the CVs' authors
      (`.in("user_id", userIds)`); that restriction changes no result. */
  lemma BatchedFetchSameResults(c: Criteria, cvs: seq<CvRow>, profiles: seq<ProfileRow>, users: seq<UserRow>)
    ensures var ids := set cv | cv in cvs :: cv.userId;
      Results(c, cvs, Filter(profiles, KeyIn(ProfileKey, ids)), Filter(users, KeyIn(UserKey, ids)))
      == Results(c, cvs, profiles, users)
  {
    var ids := set cv | cv in cvs :: cv.userId;
    var pkey, ukey := ProfileKey, UserKey;
    var ps, us := Filter(profiles, KeyIn(pkey, ids)), Filter(users, KeyIn(ukey, ids));
    IndexByRestrict(profiles, pkey, ids);
    IndexByRestrict(users, ukey, ids);
    var pm, pm' := ProfileMap(profiles), ProfileMap(ps);
    var um, um' := UserMap(users), UserMap(us);
    assert pm == IndexBy(profiles, pkey) && pm' == IndexBy(ps, pkey);
    assert um == IndexBy(users, ukey) && um' == IndexBy(us, ukey);
    forall cv | cv in cvs
      ensures Keep(c, pm', cv) == Keep(c, pm, cv) && Project(cv, pm', um') == Project(cv, pm, um)
    {
      assert cv.userId in ids;
    }
    FilterAgree(cvs, Keeper(c, pm'), Keeper(c, pm));
    var kept := Filter(cvs, Keeper(c, pm));
    assert forall k :: 0 <= k < |kept| ==> kept[k] in cvs;
  }

  /** With every criterion at its default, the only reason to drop a CV is a
      missing profile (profiles holding no negative experience). */
  lemma DefaultCriteriaKeepProfiled(cv: CvRow, profiles: seq<ProfileRow>)
    requires forall i :: 0 <= i < |profiles| ==> Years(profiles[i]) >= 0
    ensures Keep(Criteria("", "", Some(0), ""), ProfileMap(profiles), cv)
            <==> exists i :: 0 <= i < |profiles| && profiles[i].userId == cv.userId
  {
    var pm := ProfileMap(profiles);
    if cv.userId in pm {
      IndexByFrom(profiles, ProfileKey, cv.userId);
    }
  }

  /** The text filter is case-insensitive and looks at the name or the skills. */
  lemma TextFilterExamples()
    ensures var cv := CvRow("c1", "u1", "published", CvContent(Some("Jane Doe"), None, Some(["Rust"])));
      MatchesText("jane", cv) && MatchesText("RUST", cv) && !MatchesText("python", cv)
  {
    var cv := CvRow("c1", "u1", "published", CvContent(Some("Jane Doe"), None, Some(["Rust"])));
    assert NameText(cv) == "jane doe";
    assert SkillsText(cv) == "rust";
    assert OccursAt(NameText(cv), ToLower("jane"), 0);
    assert OccursAt(SkillsText(cv), ToLower("RUST"), 0);
    assert ToLower("python") == "python";
    NotIncludesFirst("jane doe", "python");
  }

  /** Because the skills are joined by a space, a query may span two of them. */
  lemma TextSpansAdjacentSkills()
    ensures MatchesText("a s", CvRow("c1", "u1", "published", CvContent(None, None, Some(["Java", "Script"]))))
  {
    var cv := CvRow("c1", "u1", "published", CvContent(None, None, Some(["Java", "Script"])));
    assert SkillsText(cv) == "java script";
    assert OccursAt(SkillsText(cv), ToLower("a s"), 3);
  }

  /** Location is an exact, case-insensitive comparison; a profile without a
      location never matches a non-empty one. */
  lemma LocationFilterExamples()
    ensures var p := ProfileRow("p1", "u1", Some("New York, NY"), Some(3));
      MatchesLocation("new york, ny", p) && !MatchesLocation("new york", p)
      && !MatchesLocation("new york", p.(location := None)) && MatchesLocation("", p.(location := None))
  {
  }

  /** The experience bound is inclusive and a `NaN` bound excludes nobody. */
  lemma ExperienceFilterExamples()
    ensures var p := ProfileRow("p1", "u1", None, Some(3));
      MeetsExperience(Some(3), p) && !MeetsExperience(Some(4), p) && MeetsExperience(None, p)
      && !MeetsExperience(Some(1), p.(yearsExperience := None))
  {
  }

  /** Two comma-separated skills give two normalised tokens. */
  lemma RequiredTwo(a: string, b: string)
    requires ',' !in a && ',' !in b
    ensures RequiredSkills(a + [','] + b) == [SkillToken(a), SkillToken(b)]
  {
    SplitFirst(a, b, ',');
    SplitNoSeparator(b, ',');
  }

  /** The skills filter is any-of: with two requested skills a CV is kept
      exactly when it has the first or the second, after trimming and
      lowercasing both sides. */
  lemma SkillsFilterAnyOf(a: string, b: string, cv: CvRow)
    requires ',' !in a && ',' !in b
    ensures HasAnySkill(a + [','] + b, cv)
            <==> SkillToken(a) in ApplicantSkills(cv) || SkillToken(b) in ApplicantSkills(cv)
  {
    RequiredTwo(a, b);
    assert a + [','] + b != "";
  }

  /** The CV used by the skills example, with skills "Go" and "SQL". */
  lemma GoSqlSkills(cv: CvRow)
    requires cv.content.skills == Some(["Go", "SQL"])
    ensures ApplicantSkills(cv) == ["go", "sql"]
  {
    assert ToLower("Go") == "go" && ToLower("SQL") == "sql";
  }

  /** Requested skills are compared whole, never as substrings: "g" does not
      select a CV with skills "Go" and "SQL". */
  lemma SkillsFilterWhole(cv: CvRow)
    requires cv.content.skills == Some(["Go", "SQL"])
    ensures !HasAnySkill("g", cv)
  {
    GoSqlSkills(cv);
    SplitNoSeparator("g", ',');
    TrimUnpadded("g");
    assert SkillToken("g") == "g";
    assert RequiredSkills("g") == ["g"];
  }
}
