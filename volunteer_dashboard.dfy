/** The volunteer dashboard: the client-side filter over the loaded
    opportunities, the capacity rule on the Apply button, and the load and
    apply transitions over the `opportunities`, `loading` and
    `notification` state. */
module VolunteerDashboard {
  import opened Wrappers
  import opened Text
  import opened Lists
  import opened Entities
  import opened Storage
  import Api

  datatype Filters = Filters(search: string, location: string, skills: seq<string>, date: string)

  /** The filters the page starts with: nothing typed, nothing selected. */
  const InitialFilters: Filters := Filters("", "", [], "")

  datatype NoticeKind = SuccessNotice | ErrorNotice
  datatype Notification = Notification(message: string, kind: NoticeKind)

  const LoadFailedMessage: string := "Failed to load opportunities"
  const AppliedMessage: string := "Application submitted successfully!"
  const ApplyFailedMessage: string := "Failed to submit application"
  const FullLabel: string := "Opportunity Full"
  const ApplyLabel: string := "Apply Now"

  // ---------------------------------------------------------------------
  // The filter

  /** Case-insensitive search in the title or the description. */
  predicate MatchesSearch(o: Opportunity, search: string) {
    Includes(Lower(o.title), Lower(search)) || Includes(Lower(o.description), Lower(search))
  }

  /** Case-insensitive location test, skipped when the filter is empty. */
  predicate MatchesLocation(o: Opportunity, location: string) {
    location == "" || Includes(Lower(o.location), Lower(location))
  }

  /** Case-sensitive test on the raw date text, skipped when the filter is empty. */
  predicate MatchesDate(o: Opportunity, date: string) {
    date == "" || Includes(o.date, date)
  }

  /** No skill selected, or some selected skill is exactly one the opportunity requires. */
  predicate MatchesSkills(o: Opportunity, skills: seq<string>) {
    |skills| == 0 || exists i :: 0 <= i < |skills| && skills[i] in o.skillsRequired
  }

  predicate Matches(o: Opportunity, f: Filters) {
    MatchesSearch(o, f.search) && MatchesLocation(o, f.location) && MatchesDate(o, f.date) && MatchesSkills(o, f.skills)
  }

  /** `filteredOpportunities`: the opportunities passing all four tests, in
      their original order, each as often as it was loaded, nothing added or
      altered. */
  function FilteredOpportunities(opportunities: seq<Opportunity>, f: Filters): (r: seq<Opportunity>)
    ensures IsSubsequence(r, opportunities)
    ensures forall i :: 0 <= i < |r| ==> Matches(r[i], f)
    ensures forall i :: 0 <= i < |opportunities| && Matches(opportunities[i], f) ==> opportunities[i] in r
    ensures forall i :: 0 <= i < |opportunities| && Matches(opportunities[i], f) ==>
      multiset(r)[opportunities[i]] == multiset(opportunities)[opportunities[i]]
  {
    KeepIsSubsequence(opportunities, o => Matches(o, f));
    Keep(opportunities, o => Matches(o, f))
  }

  /** With the initial filters every loaded opportunity is shown: the empty
      string is included in every string. */
  lemma InitialFiltersShowAll(opportunities: seq<Opportunity>)
    ensures FilteredOpportunities(opportunities, InitialFilters) == opportunities
  {
    forall i | 0 <= i < |opportunities|
      ensures Matches(opportunities[i], InitialFilters)
    {
      IncludesEmpty(Lower(opportunities[i].title));
    }
    KeepAll(opportunities, o => Matches(o, InitialFilters));
  }

  function SearchOnly(f: Filters): Filters { InitialFilters.(search := f.search) }
  function LocationOnly(f: Filters): Filters { InitialFilters.(location := f.location) }
  function DateOnly(f: Filters): Filters { InitialFilters.(date := f.date) }
  function SkillsOnly(f: Filters): Filters { InitialFilters.(skills := f.skills) }

  /** Each single-criterion filter tests exactly its own criterion. */
  lemma SingleCriterion(o: Opportunity, f: Filters)
    ensures Matches(o, SearchOnly(f)) == MatchesSearch(o, f.search)
    ensures Matches(o, LocationOnly(f)) == MatchesLocation(o, f.location)
    ensures Matches(o, DateOnly(f)) == MatchesDate(o, f.date)
    ensures Matches(o, SkillsOnly(f)) == MatchesSkills(o, f.skills)
  {
    IncludesEmpty(Lower(o.title));
  }

  /** Combining criteria gives the intersection of the single-criterion
      results: filtering by all four at once equals filtering by search,
      then location, then date, then skills. */
  lemma CombinedIsIntersection(opportunities: seq<Opportunity>, f: Filters)
    ensures FilteredOpportunities(opportunities, f)
      == FilteredOpportunities(
           FilteredOpportunities(
             FilteredOpportunities(
               FilteredOpportunities(opportunities, SearchOnly(f)),
               LocationOnly(f)),
             DateOnly(f)),
           SkillsOnly(f))
  {
    var s: Opportunity -> bool := o => Matches(o, SearchOnly(f));
    var l: Opportunity -> bool := o => Matches(o, LocationOnly(f));
    var d: Opportunity -> bool := o => Matches(o, DateOnly(f));
    var k: Opportunity -> bool := o => Matches(o, SkillsOnly(f));
    var sl: Opportunity -> bool := o => s(o) && l(o);
    var sld: Opportunity -> bool := o => sl(o) && d(o);
    var sldk: Opportunity -> bool := o => sld(o) && k(o);
    KeepConjunction(opportunities, s, l, sl);
    KeepConjunction(opportunities, sl, d, sld);
    KeepConjunction(opportunities, sld, k, sldk);
    forall i | 0 <= i < |opportunities|
      ensures sldk(opportunities[i]) == Matches(opportunities[i], f)
    {
      SingleCriterion(opportunities[i], f);
    }
    KeepAgree(opportunities, sldk, o => Matches(o, f));
  }

  /** The search text may be typed in any case. */
  lemma SearchIgnoresCase(o: Opportunity, search: string)
    ensures MatchesSearch(o, search) == MatchesSearch(o, Lower(search))
  {
    LowerIdempotent(search);
  }

  /** Selecting skills that no loaded opportunity requires shows nothing. */
  lemma UnofferedSkillsShowNothing(opportunities: seq<Opportunity>, f: Filters)
    requires |f.skills| > 0
    requires forall i, j :: 0 <= i < |opportunities| && 0 <= j < |f.skills| ==> f.skills[j] !in opportunities[i].skillsRequired
    ensures FilteredOpportunities(opportunities, f) == []
  {
    KeepNone(opportunities, o => Matches(o, f));
  }

  // ---------------------------------------------------------------------
  // The Apply button

  datatype ApplyButton = ApplyButton(disabled: bool, text: string)

  /** The button is disabled and reads 'Opportunity Full' exactly when the
      registered count has reached the number needed. */
  function ApplyButtonFor(o: Opportunity): (b: ApplyButton)
    ensures b.disabled <==> o.volunteersRegistered >= o.volunteersNeeded
    ensures b.text == (if b.disabled then FullLabel else ApplyLabel)
  {
    if o.volunteersRegistered >= o.volunteersNeeded then ApplyButton(true, FullLabel)
    else ApplyButton(false, ApplyLabel)
  }

  // ---------------------------------------------------------------------
  // The page state

  class Dashboard {
    var opportunities: seq<Opportunity>
    var loading: bool
    var filters: Filters
    var notification: Option<Notification>

    constructor ()
      ensures opportunities == [] && loading && filters == InitialFilters && notification == None
    {
      opportunities := [];
      loading := true;
      filters := InitialFilters;
      notification := None;
    }

    method SetFilters(f: Filters)
      modifies this
      ensures filters == f
      ensures opportunities == old(opportunities) && loading == old(loading) && notification == old(notification)
    {
      filters := f;
    }

    /** `showNotification`; its three-second dismissal timer is not modelled. */
    method ShowNotification(message: string, kind: NoticeKind)
      modifies this
      ensures notification == Some(Notification(message, kind))
      ensures opportunities == old(opportunities) && loading == old(loading) && filters == old(filters)
    {
      notification := Some(Notification(message, kind));
    }

    /** `loadOpportunities`: a successful fetch replaces the list, a failed
      one keeps it and posts an error notice; `loading` ends false either way.
      The fetch goes through the response interceptor. */
    method LoadOpportunities(ls: LocalStorage, fetched: Result<seq<Opportunity>, HttpFailure>)
      modifies this, ls
      ensures !loading
      ensures fetched.Success? ==> opportunities == fetched.value && notification == old(notification)
      ensures fetched.Failure? ==> (opportunities == old(opportunities)
        && notification == Some(Notification(LoadFailedMessage, ErrorNotice)))
      ensures filters == old(filters)
      ensures ls.items == Api.AfterReply(old(ls.items), fetched)
    {
      loading := true;
      var r := Api.Send(ls, fetched);
      match r {
        case Success(data) =>
          opportunities := data;
        case Failure(_) =>
          ShowNotification(LoadFailedMessage, ErrorNotice);
      }
      loading := false;
    }

    /** `handleApply`: a successful application posts a success notice and
      reloads the list; a failed one posts an error notice and does not
      reload. Both calls go through the response interceptor. */
    method HandleApply(ls: LocalStorage, applied: Result<(), HttpFailure>, reload: Result<seq<Opportunity>, HttpFailure>)
      returns (reloaded: bool)
      modifies this, ls
      ensures reloaded <==> applied.Success?
      ensures filters == old(filters)
      ensures applied.Failure? ==> (opportunities == old(opportunities) && loading == old(loading)
        && notification == Some(Notification(ApplyFailedMessage, ErrorNotice)))
      ensures applied.Success? && reload.Success? ==> (opportunities == reload.value && !loading
        && notification == Some(Notification(AppliedMessage, SuccessNotice)))
      ensures applied.Success? && reload.Failure? ==> (opportunities == old(opportunities) && !loading
        && notification == Some(Notification(LoadFailedMessage, ErrorNotice)))
      ensures ls.items == if applied.Success? then Api.AfterReply(old(ls.items), reload)
        else Api.AfterReply(old(ls.items), applied)
    {
      var r := Api.Send(ls, applied);
      match r
      case Success(_) =>
        ShowNotification(AppliedMessage, SuccessNotice);
        LoadOpportunities(ls, reload);
        reloaded := true;
      case Failure(_) =>
        ShowNotification(ApplyFailedMessage, ErrorNotice);
        reloaded := false;
    }

    /** A click on an opportunity's Apply button: a disabled (full) button
      issues no request and changes nothing; an enabled one applies for
      that opportunity, with the outcome of `handleApply`. Returns the id
      applied for, if any. */
    method ClickApply(ls: LocalStorage, o: Opportunity, applied: Result<(), HttpFailure>,
                      reload: Result<seq<Opportunity>, HttpFailure>)
      returns (request: Option<int>)
      requires o in FilteredOpportunities(opportunities, filters)
      modifies this, ls
      ensures request == if o.volunteersRegistered < o.volunteersNeeded then Some(o.id) else None
      ensures request.None? ==> unchanged(this) && unchanged(ls)
      ensures request.Some? ==> filters == old(filters)
      ensures request.Some? && applied.Failure? ==> (opportunities == old(opportunities) && loading == old(loading)
        && notification == Some(Notification(ApplyFailedMessage, ErrorNotice))
        && ls.items == Api.AfterFailure(old(ls.items), applied.error))
      ensures request.Some? && applied.Success? && reload.Success? ==> (opportunities == reload.value && !loading
        && notification == Some(Notification(AppliedMessage, SuccessNotice))
        && ls.items == old(ls.items))
      ensures request.Some? && applied.Success? && reload.Failure? ==> (opportunities == old(opportunities) && !loading
        && notification == Some(Notification(LoadFailedMessage, ErrorNotice))
        && ls.items == Api.AfterFailure(old(ls.items), reload.error))
    {
      if ApplyButtonFor(o).disabled {
        return None;
      }
      request := Some(o.id);
      var _ := HandleApply(ls, applied, reload);
    }
  }

  /** The filter example: searching "beach" over a beach clean-up and a
      tutoring session keeps only the first. */
  lemma BeachSearchExample(beach: Opportunity, tutoring: Opportunity)
    requires beach.title == "Beach Cleanup" && beach.description == ""
    requires tutoring.title == "Tutoring" && tutoring.description == ""
    ensures FilteredOpportunities([beach, tutoring], InitialFilters.(search := "beach")) == [beach]
  {
    var f := InitialFilters.(search := "beach");
    BeachMatches(beach);
    TutoringDoesNotMatch(tutoring);
    var p: Opportunity -> bool := o => Matches(o, f);
    assert [beach, tutoring][1..] == [tutoring];
    assert Keep([tutoring], p) == [];
  }

  lemma BeachMatches(beach: Opportunity)
    requires beach.title == "Beach Cleanup"
    ensures Matches(beach, InitialFilters.(search := "beach"))
  {
    assert Lower("beach") == "beach";
    assert Lower(beach.title)[..5] == "beach";
  }

  lemma TutoringDoesNotMatch(tutoring: Opportunity)
    requires tutoring.title == "Tutoring" && tutoring.description == ""
    ensures !MatchesSearch(tutoring, "beach")
  {
    assert Lower("beach") == "beach";
    var t := Lower(tutoring.title);
    assert forall i :: 0 <= i < |t| ==> t[i] != 'b';
    IncludesIff(t, "beach");
    assert Lower("") == "";
  }
}
