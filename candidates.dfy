/**
 * The candidates page: the status/stage lookup tables, the list-view filter,
 * the Kanban list derived from it, the position dropdown, and the page state
 * that the filter controls, card clicks and saves change.
 */
module Candidates {
  import opened Wrappers
  import opened Text
  import opened Seqs
  import opened Types
  import opened Kanban
  import opened Saving

  /** `statusToStageMap[status] || 'received'`: the table is keyed by strings, so it also
      covers "waiting", and every other key falls back to `received`. The table is taken as a
      plain map of its six entries. */
  function StatusToStage(status: string): (r: Stage)
    ensures r == Received <==> status == "new" || !IsMappedStatus(status)
    ensures r == InterviewPlanned <==> status == "interview"
    ensures r == InterviewCompleted <==> status == "offer"
    ensures r == ClientWaiting <==> status == "waiting"
    ensures r == Recruited <==> status == "hired" || status == "rejected"
  {
    if status == "new" then Received
    else if status == "interview" then InterviewPlanned
    else if status == "offer" then InterviewCompleted
    else if status == "waiting" then ClientWaiting
    else if status == "hired" then Recruited
    else if status == "rejected" then Recruited
    else Received
  }

  /** The keys of `statusToStageMap`. */
  predicate IsMappedStatus(status: string) {
    status in {"new", "interview", "offer", "waiting", "hired", "rejected"}
  }

  /** The table's entries and its default. */
  lemma StatusToStageTable(status: string)
    ensures StatusToStage("new") == Received && StatusToStage("interview") == InterviewPlanned
    ensures StatusToStage("offer") == InterviewCompleted && StatusToStage("waiting") == ClientWaiting
    ensures StatusToStage("hired") == Recruited && StatusToStage("rejected") == Recruited
    ensures !IsMappedStatus(status) ==> StatusToStage(status) == Received
  {
  }

  /** `stageToStatusMap`, total over the five stages. */
  function StageToStatus(stage: Stage): (r: string)
    ensures IsMappedStatus(r) && r != "rejected"
  {
    match stage
    case Received => "new"
    case InterviewPlanned => "interview"
    case InterviewCompleted => "offer"
    case ClientWaiting => "waiting"
    case Recruited => "hired"
  }

  /** Writing a stage as a status and reading it back gives the stage again;
      so no two stages are written as the same status. */
  lemma StageStatusRoundTrip(stage: Stage, other: Stage)
    ensures StatusToStage(StageToStatus(stage)) == stage
    ensures StageToStatus(stage) == StageToStatus(other) ==> stage == other
  {
  }

  /** Reading a status as a stage and writing it back gives the status again,
      except for "rejected", which shares `recruited` with "hired". */
  lemma StatusStageRoundTrip(status: string)
    requires IsMappedStatus(status) && status != "rejected"
    ensures StageToStatus(StatusToStage(status)) == status
  {
  }

  /** A drop on the Client Review column writes a status the candidate record does not declare. */
  lemma ClientWaitingStatusUndeclared()
    ensures ParseStatus(StageToStatus(ClientWaiting)) == None
    ensures forall s: Stage :: s != ClientWaiting ==> ParseStatus(StageToStatus(s)).Some?
  {
  }

  /** The `filters` state record. */
  datatype FilterParams = FilterParams(status: string, position: string, rating: string) {

    function Get(name: FilterName): string {
      match name
      case StatusFilter => status
      case PositionFilter => position
      case RatingFilter => rating
    }

    /** `{ ...prev, [name]: value }` */
    function With(name: FilterName, value: string): (r: FilterParams)
      ensures r.Get(name) == value
      ensures forall other :: other != name ==> r.Get(other) == Get(other)
    {
      match name
      case StatusFilter => this.(status := value)
      case PositionFilter => this.(position := value)
      case RatingFilter => this.(rating := value)
    }
  }

  /** The `name` attributes of the three filter selects. */
  datatype FilterName = StatusFilter | PositionFilter | RatingFilter

  const AllFilter: string := "all"

  const InitialFilters: FilterParams := FilterParams(AllFilter, AllFilter, AllFilter)

  /** `parseInt(value, 10)` on the rating options: `None` stands for `NaN`. */
  function ParseRating(value: string): (r: Option<int>)
    ensures r.Some? ==> r.value >= 0
  {
    if |value| > 0 && AllDigits(value) then Some(Decimal(value)) else None
  }

  /** The rating options "1" to "5" parse to their digit. */
  lemma RatingOptionsParse(k: int)
    requires 1 <= k <= 5
    ensures ParseRating([('0' as int + k) as char]) == Some(k)
  {
    var s := [('0' as int + k) as char];
    assert AllDigits(s);
    assert s[..0] == [] && Decimal(s[..0]) == 0;
    assert Decimal(s) == s[0] as int - '0' as int;
  }

  /** The search part of the filter: the lower-cased term occurs in the full name, the position or the email. */
  predicate MatchesSearch(c: Candidate, term: string)
    ensures term == "" ==> MatchesSearch(c, term)
  {
    ContainsEmpty(Lower(c.position));
    var t := Lower(term);
    Contains(Lower(c.firstName + " " + c.lastName), t)
    || Contains(Lower(c.position), t)
    || Contains(Lower(c.email), t)
  }

  /** The list-view filter callback, one early return at a time. The initial filters with an
      empty search let everyone through; a status filter passes only candidates of the declared
      status it names, and a rating filter never passes an unrated candidate. */
  predicate Passes(c: Candidate, f: FilterParams, term: string)
    ensures f == InitialFilters && term == "" ==> Passes(c, f, term)
    ensures Passes(c, f, term) && f.status != AllFilter ==> ParseStatus(f.status) == Some(c.status)
    ensures Passes(c, f, term) && f.rating != AllFilter ==> c.rating.Some?
  {
    if f.status != AllFilter && StatusName(c.status) != f.status then false
    else if f.position != AllFilter && c.position != f.position then false
    else if f.rating != AllFilter && (ParseRating(f.rating).None? || c.rating != ParseRating(f.rating)) then false
    else if term != "" && !MatchesSearch(c, term) then false
    else true
  }

  /** A candidate passes exactly when every filter is `all` or matches, and the search is empty or matches. */
  lemma PassesIff(c: Candidate, f: FilterParams, term: string)
    ensures Passes(c, f, term) <==>
      && (f.status == "all" || StatusName(c.status) == f.status)
      && (f.position == "all" || c.position == f.position)
      && (f.rating == "all" || (ParseRating(f.rating).Some? && c.rating == ParseRating(f.rating)))
      && (term == "" || MatchesSearch(c, term))
  {
  }

  /** Picking "k Stars" keeps exactly the candidates rated k; an unrated candidate never passes it. */
  lemma RatingFilterSelects(c: Candidate, f: FilterParams, k: int)
    requires 1 <= k <= 5 && f.rating == [('0' as int + k) as char]
    requires f.status == AllFilter && f.position == AllFilter
    ensures Passes(c, f, "") <==> c.rating == Some(k)
  {
    RatingOptionsParse(k);
  }

  function Keep(f: FilterParams, term: string): Candidate -> bool {
    (c: Candidate) => Passes(c, f, term)
  }

  /** The fetched list, or nothing while it is not there. */
  /** The list view's rows: `candidates?.filter(...) || []`. Every copy of a passing candidate
      is shown and no copy of any other. */
  function ListView(data: Option<seq<Candidate>>, f: FilterParams, term: string): (r: seq<Candidate>)
    ensures data.None? ==> r == []
    ensures forall c :: multiset(r)[c] == if Passes(c, f, term) then multiset(Loaded(data))[c] else 0
  {
    FilterCount(Loaded(data), Keep(f, term));
    Filter(Loaded(data), Keep(f, term))
  }

  /** The list view keeps exactly the passing candidates, in their order. */
  lemma ListViewSelects(data: Option<seq<Candidate>>, f: FilterParams, term: string)
    ensures forall c :: c in ListView(data, f, term) <==> c in Loaded(data) && Passes(c, f, term)
    ensures IsSubsequence(ListView(data, f, term), Loaded(data))
  {
    FilterIsSubsequence(Loaded(data), Keep(f, term));
  }

  /** With every filter at `all` and an empty search the list view shows every candidate. */
  lemma ListViewUnfiltered(data: Option<seq<Candidate>>)
    ensures ListView(data, InitialFilters, "") == Loaded(data)
  {
    FilterAll(Loaded(data), Keep(InitialFilters, ""));
  }

  /** The Kanban filter callback: the list-view checks, then `status !== 'rejected'`. */
  function KanbanKeep(f: FilterParams, term: string): Candidate -> bool {
    (c: Candidate) => Passes(c, f, term) && c.status != Rejected
  }

  function NotRejected(): Candidate -> bool {
    (c: Candidate) => c.status != Rejected
  }

  /** The `.map(...)` step of `getKanbanCandidates`: the card keeps the candidate's id, names,
      position, assignee and tags; hired and rejected candidates both land on `recruited`, and no
      declared status reaches Client Review. */
  function ToKanban(c: Candidate): (r: KanbanCandidate)
    ensures r.id == c.id && r.firstName == c.firstName && r.lastName == c.lastName
    ensures r.position == c.position && r.assignedTo == c.assignedTo && r.tags == Some(c.tags)
    ensures r.stage == Recruited <==> c.status == Hired || c.status == Rejected
    ensures r.stage != ClientWaiting
  {
    KanbanCandidate(
      c.id, c.firstName, c.lastName, c.position,
      StatusToStage(StatusName(c.status)),
      Some("Company Name"), Some(c.updatedAt), c.assignedTo, Some(c.tags))
  }

  /** `getKanbanCandidates()`: the list view without its rejected candidates, one card each. */
  function KanbanCandidates(data: Option<seq<Candidate>>, f: FilterParams, term: string): (r: seq<KanbanCandidate>)
    ensures r == Map(Filter(ListView(data, f, term), NotRejected()), ToKanban)
    ensures forall k :: k in r ==> k.stage != ClientWaiting
  {
    FilterConjunction(Loaded(data), Keep(f, term), NotRejected(), KanbanKeep(f, term));
    if data.None? then [] else Map(Filter(data.value, KanbanKeep(f, term)), ToKanban)
  }

  /** The Kanban list is the list view without its rejected candidates, in the same order,
      each card carrying its candidate's id, names, position, tags and mapped stage. */
  lemma KanbanIsListWithoutRejected(data: Option<seq<Candidate>>, f: FilterParams, term: string)
    ensures var src := Filter(ListView(data, f, term), NotRejected());
      && KanbanCandidates(data, f, term) == Map(src, ToKanban)
      && IsSubsequence(src, ListView(data, f, term))
      && forall i :: 0 <= i < |src| ==>
           var k := KanbanCandidates(data, f, term)[i];
           && k.id == src[i].id && k.firstName == src[i].firstName && k.lastName == src[i].lastName
           && k.position == src[i].position && k.tags == Some(src[i].tags)
           && k.stage == StatusToStage(StatusName(src[i].status))
  {
    FilterConjunction(Loaded(data), Keep(f, term), NotRejected(), KanbanKeep(f, term));
    FilterIsSubsequence(ListView(data, f, term), NotRejected());
  }

  /** Whatever the filters, every card stands for a non-rejected candidate that passes them,
      and a rejected candidate whose id no other candidate shares has no card. */
  lemma KanbanNeverShowsRejected(data: Option<seq<Candidate>>, f: FilterParams, term: string)
    ensures forall k :: k in KanbanCandidates(data, f, term) ==>
      exists c :: c in Loaded(data) && c.status != Rejected && Passes(c, f, term) && k == ToKanban(c)
    ensures forall c :: (c in Loaded(data) && c.status == Rejected
                         && (forall d :: d in Loaded(data) && d.id == c.id ==> d == c))
                        ==> forall k :: k in KanbanCandidates(data, f, term) ==> k.id != c.id
  {
    var ks := KanbanCandidates(data, f, term);
    if data.Some? {
      var src := Filter(data.value, KanbanKeep(f, term));
      forall k | k in ks
        ensures exists c :: c in Loaded(data) && c.status != Rejected && Passes(c, f, term) && k == ToKanban(c)
      {
        var i :| 0 <= i < |ks| && ks[i] == k;
        assert src[i] in src;
      }
    }
  }

  /** Under the declared status type the Client Review column is always empty. */
  lemma ClientReviewColumnEmpty(data: Option<seq<Candidate>>, f: FilterParams, term: string)
    ensures forall k :: k in KanbanCandidates(data, f, term) ==> k.stage != ClientWaiting
    ensures Board(KanbanCandidates(data, f, term))[3].cards == []
  {
    var ks := KanbanCandidates(data, f, term);
    KanbanNeverShowsRejected(data, f, term);
  }

  /** `uniquePositions`: each position once. */
  function UniquePositions(data: Option<seq<Candidate>>): (r: seq<string>)
    ensures NoDuplicates(r)
    ensures forall p :: p in r <==> exists c :: c in Loaded(data) && c.position == p
  {
    var cs := Loaded(data);
    var ps := Map(cs, (c: Candidate) => c.position);
    assert forall p :: p in ps <==> exists c :: c in cs && c.position == p by {
      forall p ensures p in ps <==> exists c :: c in cs && c.position == p {
        if p in ps {
          var i :| 0 <= i < |ps| && ps[i] == p;
          assert cs[i] in cs;
        }
        if exists c :: c in cs && c.position == p {
          var c :| c in cs && c.position == p;
          var i :| 0 <= i < |cs| && cs[i] == c;
          assert ps[i] == p;
        }
      }
    }
    Distinct(ps)
  }

  function HasId(id: string): Candidate -> bool {
    (c: Candidate) => c.id == id
  }

  /** `candidates?.find(c => c.id === id) || null` */
  function FindCandidate(data: Option<seq<Candidate>>, id: string): (r: Option<Candidate>)
    ensures r.Some? ==> r.value in Loaded(data) && r.value.id == id
    ensures r.Some? ==> exists i :: 0 <= i < |Loaded(data)| && Loaded(data)[i] == r.value
                          && forall j :: 0 <= j < i ==> Loaded(data)[j].id != id
    ensures r.None? <==> forall c :: c in Loaded(data) ==> c.id != id
  {
    Find(Loaded(data), HasId(id))
  }

  /** Clicking any card on the board always finds a candidate, and one with that card's id. */
  lemma BoardClickFindsCandidate(data: Option<seq<Candidate>>, f: FilterParams, term: string, i: nat, j: nat)
    requires i < |StageConfig| && j < |Board(KanbanCandidates(data, f, term))[i].cards|
    ensures var id := ColumnCards(Board(KanbanCandidates(data, f, term))[i])[j].clickId;
      FindCandidate(data, id).Some? && FindCandidate(data, id).value.id == id
  {
    var ks := KanbanCandidates(data, f, term);
    CardClickNamesCandidate(ks, i, j);
    KanbanNeverShowsRejected(data, f, term);
    var k := ByStage(ks, StageConfig[i].id)[j];
    var c :| c in Loaded(data) && c.status != Rejected && Passes(c, f, term) && k == ToKanban(c);
    assert c.id == k.id;
  }

  /** A call the page makes to the candidates API. */
  datatype CandidateCall =
    | CreateCandidate(candidate: Candidate)
    | UpdateCandidate(id: string, candidate: Candidate)
    | UpdateStatus(id: string, status: string)

  /** `handleSaveCandidate`: create a record with a temporary id, update any other. */
  function SaveCall(c: Candidate): (r: CandidateCall)
    ensures r.CreateCandidate? <==> StartsWith(c.id, TempPrefix)
    ensures r.CreateCandidate? ==> r.candidate == c
    ensures r.UpdateCandidate? ==> r.id == c.id && r.candidate == c
    ensures !r.UpdateStatus?
  {
    match RouteFor(c.id)
    case Create => CreateCandidate(c)
    case Update => UpdateCandidate(c.id, c)
  }

  /** The page's state: the fetched list, the search box, the filter record, the selected
      candidate, and the API calls made so far. */
  class CandidatesPage {
    var candidates: Option<seq<Candidate>>
    var searchTerm: string
    var filters: FilterParams
    var selected: Option<Candidate>
    var calls: seq<CandidateCall>

    constructor (data: Option<seq<Candidate>>)
      ensures candidates == data && searchTerm == "" && filters == InitialFilters
      ensures selected == None && calls == []
    {
      candidates := data;
      searchTerm := "";
      filters := InitialFilters;
      selected := None;
      calls := [];
    }

    /** The rows of the list view. */
    function Rows(): seq<Candidate>
      reads this
    {
      ListView(candidates, filters, searchTerm)
    }

    /** The board. */
    function Columns(): seq<Column>
      reads this
    {
      Board(KanbanCandidates(candidates, filters, searchTerm))
    }

    /** The search input's `onChange`. */
    method SetSearchTerm(term: string)
      modifies this
      ensures searchTerm == term
      ensures candidates == old(candidates) && filters == old(filters)
      ensures selected == old(selected) && calls == old(calls)
      ensures forall c :: c in Rows() <==> c in Loaded(candidates) && Passes(c, filters, term)
      ensures multiset(AllCards(Columns())) == multiset(KanbanCandidates(candidates, filters, term))
    {
      searchTerm := term;
      ListViewSelects(candidates, filters, term);
      BoardPartition(KanbanCandidates(candidates, filters, term));
    }

    /** `handleFilterChange`: only the named filter changes. */
    method ChangeFilter(name: FilterName, value: string)
      modifies this
      ensures filters == old(filters).With(name, value)
      ensures filters.Get(name) == value
      ensures forall other :: other != name ==> filters.Get(other) == old(filters).Get(other)
      ensures candidates == old(candidates) && searchTerm == old(searchTerm)
      ensures selected == old(selected) && calls == old(calls)
      ensures forall c :: c in Rows() <==> c in Loaded(candidates) && Passes(c, filters, searchTerm)
      ensures multiset(AllCards(Columns())) == multiset(KanbanCandidates(candidates, filters, searchTerm))
    {
      filters := filters.With(name, value);
      ListViewSelects(candidates, filters, searchTerm);
      BoardPartition(KanbanCandidates(candidates, filters, searchTerm));
    }

    /** `handleCandidateClick`: select the first candidate with that id, or none. */
    method ClickCandidate(id: string)
      modifies this
      ensures selected == FindCandidate(candidates, id)
      ensures candidates == old(candidates) && searchTerm == old(searchTerm)
      ensures filters == old(filters) && calls == old(calls)
    {
      selected := FindCandidate(candidates, id);
    }

    /** `handleStageChange`: one status update carrying the stage's status. */
    method ChangeStage(id: string, stage: Stage)
      modifies this
      ensures calls == old(calls) + [UpdateStatus(id, StageToStatus(stage))]
      ensures candidates == old(candidates) && searchTerm == old(searchTerm)
      ensures filters == old(filters) && selected == old(selected)
    {
      calls := calls + [UpdateStatus(id, StageToStatus(stage))];
    }

    /** `handleSaveCandidate`: one create or update call. */
    method SaveCandidate(c: Candidate)
      modifies this
      ensures calls == old(calls) + [SaveCall(c)]
      ensures candidates == old(candidates) && searchTerm == old(searchTerm)
      ensures filters == old(filters) && selected == old(selected)
    {
      calls := calls + [SaveCall(c)];
    }
  }
}
