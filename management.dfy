/**
  Organisational reference data (management/models.py): sites and teams.
  Neither model overrides `save`; what they define is which field values
  are valid and that names are unique across the table. A write is modelled
  as `Model.full_clean` (every field's checks, then the uniqueness check on
  the name if the name passed its own checks) followed by the insert.
  `notes` is a `TextField`, whose `max_length` no validator checks.
 */
module Management {
  import opened Wrappers

  const SiteNameMaxLength: nat := 32
  const SiteDescriptionMaxLength: nat := 32
  const TeamNameMaxLength: nat := 32
  /** `EmailField`'s default `max_length`. */
  const TeamEmailMaxLength: nat := 254

  datatype Site = Site(name: string, description: string, notes: string)

  datatype Team = Team(name: string, email: string, notes: string)

  /** The validated columns. */
  datatype Column = Name | Description | Email

  /** Why a value is refused. */
  datatype ErrorKind = Blank | TooLong | NotASlug | Duplicate

  /** One refusal, reported against its column. */
  datatype FieldError = FieldError(column: Column, kind: ErrorKind)

  /** The character class of Django's `validate_slug`: ASCII letters, digits, '-' and '_'. */
  predicate IsSlugChar(c: char)
  {
    ('a' <= c <= 'z') || ('A' <= c <= 'Z') || ('0' <= c <= '9') || c == '-' || c == '_'
  }

  /** `validate_slug` accepts one or more slug characters and nothing else. */
  predicate IsSlug(s: string)
  {
    |s| > 0 && forall i :: 0 <= i < |s| ==> IsSlugChar(s[i])
  }

  predicate ValidSiteName(name: string)
  {
    name != [] && |name| <= SiteNameMaxLength && IsSlug(name)
  }

  /** A site row `full_clean` accepts, apart from uniqueness: the description is optional but at most 32 characters. */
  predicate ValidSite(s: Site)
  {
    ValidSiteName(s.name) && |s.description| <= SiteDescriptionMaxLength
  }

  /** A required (`blank=False`) field of at most 32 characters. */
  predicate ValidTeamName(name: string)
  {
    name != [] && |name| <= TeamNameMaxLength
  }

  /**
    A team row `full_clean` accepts, apart from uniqueness: the email is
    required and at most 254 characters (its format check is not modelled).
   */
  predicate ValidTeam(t: Team)
  {
    ValidTeamName(t.name) && t.email != [] && |t.email| <= TeamEmailMaxLength
  }

  /**
    The errors of one character field. A blank value ends the field's
    checks: it is refused when the field is required and accepted otherwise.
    A non-blank value goes through every validator and each failure is
    reported.
   */
  function CharFieldErrors(value: string, maxLength: nat, slug: bool, blankAllowed: bool): (errs: set<ErrorKind>)
    ensures errs == {} <==> (value == [] ==> blankAllowed) && |value| <= maxLength && (slug && value != [] ==> IsSlug(value))
    ensures Duplicate !in errs
    ensures Blank in errs <==> value == [] && !blankAllowed
    ensures value == [] ==> errs <= {Blank}
  {
    if value == [] then (if blankAllowed then {} else {Blank})
    else (if |value| > maxLength then {TooLong} else {}) + (if slug && !IsSlug(value) then {NotASlug} else {})
  }

  /** Reports each error of a column against that column. */
  function OnColumn(column: Column, kinds: set<ErrorKind>): (errs: set<FieldError>)
    ensures forall k :: FieldError(column, k) in errs <==> k in kinds
    ensures forall e :: e in errs ==> e.column == column
    ensures errs == {} <==> kinds == {}
  {
    set k | k in kinds :: FieldError(column, k)
  }

  // ---- Sites ----

  predicate SiteNameFree(sites: seq<Site>, name: string)
  {
    forall i :: 0 <= i < |sites| ==> sites[i].name != name
  }

  /** The site table invariant: every row is valid and no two rows share a name. */
  predicate SiteTableValid(sites: seq<Site>)
  {
    && (forall i :: 0 <= i < |sites| ==> ValidSite(sites[i]))
    && (forall i, j :: 0 <= i < j < |sites| ==> sites[i].name != sites[j].name)
  }

  /** The errors a new site row draws from the field validators and the `unique` constraint. */
  function SiteErrors(sites: seq<Site>, s: Site): (errs: set<FieldError>)
    ensures errs == {} <==> ValidSite(s) && SiteNameFree(sites, s.name)
    ensures FieldError(Name, Duplicate) in errs <==> ValidSiteName(s.name) && !SiteNameFree(sites, s.name)
    ensures FieldError(Description, TooLong) in errs <==> |s.description| > SiteDescriptionMaxLength
    ensures forall e :: e in errs && e.column == Description ==> e.kind == TooLong
  {
    var nameErrs := CharFieldErrors(s.name, SiteNameMaxLength, true, false);
    var descErrs := CharFieldErrors(s.description, SiteDescriptionMaxLength, false, true);
    var fieldErrs := OnColumn(Name, nameErrs) + OnColumn(Description, descErrs);
    if nameErrs == {} && !SiteNameFree(sites, s.name) then fieldErrs + {FieldError(Name, Duplicate)}
    else fieldErrs
  }

  /** Creating a site: rejected with its errors, or appended to the table. */
  function AddSite(sites: seq<Site>, s: Site): (r: Result<seq<Site>, set<FieldError>>)
    ensures r.Success? <==> ValidSite(s) && SiteNameFree(sites, s.name)
    ensures r.Success? ==> r.value == sites + [s]
    ensures r.Failure? ==> r.error != {} && r.error == SiteErrors(sites, s)
  {
    var errs := SiteErrors(sites, s);
    if errs == {} then Success(sites + [s]) else Failure(errs)
  }

  /** Adding sites never breaks the site table invariant. */
  lemma AddSitePreservesValid(sites: seq<Site>, s: Site)
    requires SiteTableValid(sites)
    requires AddSite(sites, s).Success?
    ensures SiteTableValid(AddSite(sites, s).value)
  {
    var t := sites + [s];
    forall i, j | 0 <= i < j < |t| ensures t[i].name != t[j].name {
      if j == |sites| {
        assert t[i] == sites[i];
      }
    }
  }

  /**
    A name already present at any position is refused as a duplicate; with a
    description of valid length that is the only error.
   */
  lemma AddSiteRefusesTakenName(sites: seq<Site>, s: Site, k: nat)
    requires SiteTableValid(sites)
    requires k < |sites| && sites[k].name == s.name
    ensures AddSite(sites, s).Failure? && FieldError(Name, Duplicate) in AddSite(sites, s).error
    ensures |s.description| <= SiteDescriptionMaxLength ==> AddSite(sites, s) == Failure({FieldError(Name, Duplicate)})
  {
    assert !SiteNameFree(sites, s.name);
    assert ValidSiteName(s.name);
    if |s.description| <= SiteDescriptionMaxLength {
      assert CharFieldErrors(s.name, SiteNameMaxLength, true, false) == {};
      assert CharFieldErrors(s.description, SiteDescriptionMaxLength, false, true) == {};
      assert OnColumn(Name, {}) == {} && OnColumn(Description, {}) == {};
      assert SiteErrors(sites, s) == {FieldError(Name, Duplicate)};
    }
  }

  // ---- Teams ----

  predicate TeamNameFree(teams: seq<Team>, name: string)
  {
    forall i :: 0 <= i < |teams| ==> teams[i].name != name
  }

  /** The team table invariant: every row is valid and no two rows share a name. */
  predicate TeamTableValid(teams: seq<Team>)
  {
    && (forall i :: 0 <= i < |teams| ==> ValidTeam(teams[i]))
    && (forall i, j :: 0 <= i < j < |teams| ==> teams[i].name != teams[j].name)
  }

  function TeamErrors(teams: seq<Team>, t: Team): (errs: set<FieldError>)
    ensures errs == {} <==> ValidTeam(t) && TeamNameFree(teams, t.name)
    ensures FieldError(Name, Duplicate) in errs <==> ValidTeamName(t.name) && !TeamNameFree(teams, t.name)
    ensures FieldError(Email, Blank) in errs <==> t.email == []
    ensures FieldError(Email, TooLong) in errs <==> |t.email| > TeamEmailMaxLength
    ensures forall e :: e in errs ==> e.kind != NotASlug
  {
    var nameErrs := CharFieldErrors(t.name, TeamNameMaxLength, false, false);
    var fieldErrs := OnColumn(Name, nameErrs) + OnColumn(Email, CharFieldErrors(t.email, TeamEmailMaxLength, false, false));
    if nameErrs == {} && !TeamNameFree(teams, t.name) then fieldErrs + {FieldError(Name, Duplicate)}
    else fieldErrs
  }

  function AddTeam(teams: seq<Team>, t: Team): (r: Result<seq<Team>, set<FieldError>>)
    ensures r.Success? <==> ValidTeam(t) && TeamNameFree(teams, t.name)
    ensures r.Success? ==> r.value == teams + [t]
    ensures r.Failure? ==> r.error != {} && r.error == TeamErrors(teams, t)
  {
    var errs := TeamErrors(teams, t);
    if errs == {} then Success(teams + [t]) else Failure(errs)
  }

  lemma AddTeamPreservesValid(teams: seq<Team>, t: Team)
    requires TeamTableValid(teams)
    requires AddTeam(teams, t).Success?
    ensures TeamTableValid(AddTeam(teams, t).value)
  {
    var u := teams + [t];
    forall i, j | 0 <= i < j < |u| ensures u[i].name != u[j].name {
      if j == |teams| {
        assert u[i] == teams[i];
      }
    }
  }

  /** A taken team name is refused as a duplicate; with a valid-length email given that is the only error. */
  lemma AddTeamRefusesTakenName(teams: seq<Team>, t: Team, k: nat)
    requires TeamTableValid(teams)
    requires k < |teams| && teams[k].name == t.name
    ensures AddTeam(teams, t).Failure? && FieldError(Name, Duplicate) in AddTeam(teams, t).error
    ensures t.email != [] && |t.email| <= TeamEmailMaxLength ==> AddTeam(teams, t) == Failure({FieldError(Name, Duplicate)})
  {
    assert !TeamNameFree(teams, t.name);
    assert ValidTeamName(t.name);
    if t.email != [] && |t.email| <= TeamEmailMaxLength {
      assert CharFieldErrors(t.name, TeamNameMaxLength, false, false) == {};
      assert CharFieldErrors(t.email, TeamEmailMaxLength, false, false) == {};
      assert OnColumn(Name, {}) == {} && OnColumn(Email, {}) == {};
      assert TeamErrors(teams, t) == {FieldError(Name, Duplicate)};
    }
  }
}
