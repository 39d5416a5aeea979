/** The organization dashboard's list handling: the fetched opportunities
    sorted newest first in place, a created opportunity appended, and the
    recommended volunteers normalised to a list. */
module OrganizationDashboard {
  import opened Wrappers
  import opened Json
  import opened Entities
  import opened Storage
  import Api
  import OpportunityModal

  /** Every opportunity was created no earlier than the ones after it. */
  predicate NewestFirst(s: seq<Opportunity>) {
    forall p, q :: 0 <= p < q < |s| ==> s[p].createdAt >= s[q].createdAt
  }

  /** Each opportunity is no older than the next one. */
  predicate NewestFirstAdjacent(s: seq<Opportunity>) {
    forall k :: 0 <= k < |s| - 1 ==> s[k].createdAt >= s[k + 1].createdAt
  }

  /** Ordering neighbours orders the whole sequence. */
  lemma {:induction false} AdjacentIsNewestFirst(s: seq<Opportunity>)
    requires NewestFirstAdjacent(s)
    ensures NewestFirst(s)
  {
    if |s| > 1 {
      AdjacentIsNewestFirst(s[1..]);
      forall p, q | 0 <= p < q < |s|
        ensures s[p].createdAt >= s[q].createdAt
      {
        if p > 0 {
          assert s[1..][p - 1] == s[p] && s[1..][q - 1] == s[q];
        } else if q > 1 {
          assert s[1..][0] == s[1] && s[1..][q - 1] == s[q];
        }
      }
    }
  }

  /** Exchanges two opportunities of the array. */
  method Swap(a: array<Opportunity>, x: int, y: int)
    requires 0 <= x < a.Length && 0 <= y < a.Length
    modifies a
    ensures a[..] == old(a[..])[x := old(a[y])][y := old(a[x])]
    ensures multiset(a[..]) == multiset(old(a[..]))
  {
    a[x], a[y] := a[y], a[x];
  }

  /** One pass of the insertion sort: with `a[..i]` newest first, moves
      `a[i]` down until `a[..i + 1]` is newest first. */
  method InsertNewest(a: array<Opportunity>, i: int)
    requires 0 <= i < a.Length
    requires forall k :: 0 <= k < i - 1 ==> a[k].createdAt >= a[k + 1].createdAt
    modifies a
    ensures forall k :: 0 <= k < i ==> a[k].createdAt >= a[k + 1].createdAt
    ensures multiset(a[..]) == multiset(old(a[..]))
  {
    var j := i;
    while j > 0 && a[j - 1].createdAt < a[j].createdAt
      invariant 0 <= j <= i
      invariant forall k :: 0 <= k < i && k + 1 != j ==> a[k].createdAt >= a[k + 1].createdAt
      invariant 0 < j < i ==> a[j - 1].createdAt >= a[j + 1].createdAt
      invariant multiset(a[..]) == multiset(old(a[..]))
    {
      Swap(a, j - 1, j);
      j := j - 1;
    }
  }

  /** `data.sort((a, b) => b.created_at - a.created_at)`, an insertion sort
      in place: the array ends newest first and holds the same opportunities. */
  method SortNewestFirst(a: array<Opportunity>)
    modifies a
    ensures NewestFirst(a[..])
    ensures multiset(a[..]) == multiset(old(a[..]))
  {
    var i := 0;
    while i < a.Length
      invariant 0 <= i <= a.Length
      invariant forall k :: 0 <= k < i - 1 ==> a[k].createdAt >= a[k + 1].createdAt
      invariant multiset(a[..]) == multiset(old(a[..]))
    {
      InsertNewest(a, i);
      i := i + 1;
    }
    AdjacentIsNewestFirst(a[..]);
  }

  /** The volunteers shown: the reply itself when it is an array, else none. */
  function Normalise(data: JsonValue): (volunteers: seq<JsonValue>)
    ensures data.JArr? ==> volunteers == data.items
    ensures !data.JArr? ==> volunteers == []
  {
    if data.JArr? then data.items else []
  }

  /** Composed with `getRecommendedVolunteers`: the list is the reply's
      `volunteers` array when there is one, and empty on every other reply,
      an error included. */
  lemma RecommendedVolunteersShown(reply: Result<JsonValue, HttpFailure>)
    ensures Normalise(Api.RecommendedOrEmpty(reply)) ==
      if reply.Success? && reply.value.JObj? && "volunteers" in reply.value.fields && reply.value.fields["volunteers"].JArr?
      then reply.value.fields["volunteers"].items
      else []
  {
  }

  /** What the modal submits reaches the server with its skills: a typed
      skills text is sent as its parsed list, never replaced by `[]`. */
  lemma SubmittedSkillsReachServer(form: Object)
    requires OpportunityModal.SkillsField in form
    requires form[OpportunityModal.SkillsField].JStr? || form[OpportunityModal.SkillsField].JArr?
    ensures Api.CreateOpportunityBody(OpportunityModal.Submitted(form))["skills_required"] ==
      if form[OpportunityModal.SkillsField].JStr?
      then JArr(Strings(OpportunityModal.ParseSkills(form[OpportunityModal.SkillsField].s)))
      else form[OpportunityModal.SkillsField]
  {
  }

  class Dashboard {
    var opportunities: seq<Opportunity>
    var recommendedVolunteers: seq<JsonValue>
    var loading: bool
    var isModalOpen: bool

    constructor ()
      ensures opportunities == [] && recommendedVolunteers == []
      ensures loading && !isModalOpen
    {
      opportunities := [];
      recommendedVolunteers := [];
      loading := true;
      isModalOpen := false;
    }

    /** `fetchOpportunities`: on success the list becomes the fetched
        opportunities, newest first; on failure it is left as it was. */
    method FetchOpportunities(ls: LocalStorage, fetched: Result<seq<Opportunity>, HttpFailure>)
      modifies this, ls
      ensures fetched.Success? ==> NewestFirst(opportunities) && multiset(opportunities) == multiset(fetched.value)
      ensures fetched.Failure? ==> opportunities == old(opportunities)
      ensures recommendedVolunteers == old(recommendedVolunteers)
      ensures loading == old(loading) && isModalOpen == old(isModalOpen)
      ensures ls.items == if fetched.Failure? then Api.AfterFailure(old(ls.items), fetched.error) else old(ls.items)
    {
      var r := Api.Send(ls, fetched);
      if r.Success? {
        var data := new Opportunity[|r.value|](i requires 0 <= i < |r.value| => r.value[i]);
        assert data[..] == r.value;
        SortNewestFirst(data);
        opportunities := data[..];
      }
    }

    /** `handleAddOpportunity`: a created opportunity is appended at the end,
        the earlier ones keeping their order; a failed create changes nothing. */
    method HandleAddOpportunity(ls: LocalStorage, formData: Object, reply: Result<Opportunity, HttpFailure>)
      returns (body: Object)
      modifies this, ls
      ensures body == Api.CreateOpportunityBody(formData)
      ensures reply.Success? ==> opportunities == old(opportunities) + [reply.value]
      ensures reply.Failure? ==> opportunities == old(opportunities)
      ensures recommendedVolunteers == old(recommendedVolunteers)
      ensures loading == old(loading) && isModalOpen == old(isModalOpen)
      ensures ls.items == if reply.Failure? then Api.AfterFailure(old(ls.items), reply.error) else old(ls.items)
    {
      var r;
      r, body := Api.CreateOpportunity(ls, formData, reply);
      if r.Success? {
        opportunities := opportunities + [r.value];
      }
    }

    /** `fetchRecommendedVolunteers`: the list becomes the normalised reply
        and `loading` ends false whatever the reply was. */
    method FetchRecommendedVolunteers(ls: LocalStorage, reply: Result<JsonValue, HttpFailure>)
      modifies this, ls
      ensures recommendedVolunteers == Normalise(Api.RecommendedOrEmpty(reply))
      ensures !loading
      ensures opportunities == old(opportunities) && isModalOpen == old(isModalOpen)
      ensures ls.items == if reply.Failure? then Api.AfterFailure(old(ls.items), reply.error) else old(ls.items)
    {
      var data := Api.GetRecommendedVolunteers(ls, reply);
      if data.JArr? {
        recommendedVolunteers := data.items;
      } else {
        recommendedVolunteers := [];
      }
      loading := false;
    }

    /** The "Create New Opportunity" button. */
    method OpenModal()
      modifies this
      ensures isModalOpen
      ensures opportunities == old(opportunities) && recommendedVolunteers == old(recommendedVolunteers)
      ensures loading == old(loading)
    {
      isModalOpen := true;
    }

    /** The modal's `onClose`. */
    method CloseModal()
      modifies this
      ensures !isModalOpen
      ensures opportunities == old(opportunities) && recommendedVolunteers == old(recommendedVolunteers)
      ensures loading == old(loading)
    {
      isModalOpen := false;
    }

    /** Submitting the modal's form: `onSubmit` with the processed data, which
        creates and appends the opportunity, then `onClose`. */
    method SubmitModal(modal: OpportunityModal.Modal, ls: LocalStorage, reply: Result<Opportunity, HttpFailure>)
      returns (body: Object)
      requires isModalOpen
      modifies this, ls
      ensures body == Api.CreateOpportunityBody(OpportunityModal.Submitted(modal.formData))
      ensures reply.Success? ==> opportunities == old(opportunities) + [reply.value]
      ensures reply.Failure? ==> opportunities == old(opportunities)
      ensures !isModalOpen
      ensures recommendedVolunteers == old(recommendedVolunteers) && loading == old(loading)
      ensures ls.items == Api.AfterReply(old(ls.items), reply)
    {
      var calls := modal.HandleSubmit();
      body := HandleAddOpportunity(ls, calls[0].data, reply);
      CloseModal();
    }
  }
}
