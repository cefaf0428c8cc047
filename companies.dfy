/**
 * The companies page: the industry filter and search, the industry dropdown,
 * the three summary cards, and the page state that clicks and saves change.
 */
module Companies {
  import opened Wrappers
  import opened Text
  import opened Seqs
  import opened Types
  import opened Saving

  const AllIndustries: string := "all"

  /** The search part: the lower-cased term occurs in the name, the industry or the contact person. */
  predicate MatchesSearch(c: Company, term: string)
    ensures term == "" ==> MatchesSearch(c, term)
  {
    ContainsEmpty(Lower(c.name));
    var t := Lower(term);
    Contains(Lower(c.name), t) || Contains(Lower(c.industry), t) || Contains(Lower(c.contactPerson), t)
  }

  /** The `filteredCompanies` callback, one early return at a time. With `all` and an empty
      search every company passes; an industry filter passes only its own industry. */
  predicate Passes(c: Company, industry: string, term: string)
    ensures industry == AllIndustries && term == "" ==> Passes(c, industry, term)
    ensures Passes(c, industry, term) && industry != AllIndustries ==> c.industry == industry
  {
    if industry != AllIndustries && c.industry != industry then false
    else if term != "" && !MatchesSearch(c, term) then false
    else true
  }

  /** A company passes exactly when the industry filter is `all` or its industry, and the search is
      empty or matches. */
  lemma PassesIff(c: Company, industry: string, term: string)
    ensures Passes(c, industry, term) <==>
      (industry == "all" || c.industry == industry) && (term == "" || MatchesSearch(c, term))
  {
  }

  function Keep(industry: string, term: string): Company -> bool {
    (c: Company) => Passes(c, industry, term)
  }

  /** `filteredCompanies`: every copy of a passing company, and no copy of any other. */
  function FilteredCompanies(data: Option<seq<Company>>, industry: string, term: string): (r: seq<Company>)
    ensures data.None? ==> r == []
    ensures forall c :: multiset(r)[c] == if Passes(c, industry, term) then multiset(Loaded(data))[c] else 0
  {
    FilterCount(Loaded(data), Keep(industry, term));
    Filter(Loaded(data), Keep(industry, term))
  }

  /** The table shows exactly the passing companies, as an order-preserving subsequence of the list,
      and all of it with `all` and an empty search. */
  lemma FilteredCompaniesSelects(data: Option<seq<Company>>, industry: string, term: string)
    ensures forall c :: c in FilteredCompanies(data, industry, term) <==> c in Loaded(data) && Passes(c, industry, term)
    ensures IsSubsequence(FilteredCompanies(data, industry, term), Loaded(data))
    ensures industry == AllIndustries && term == "" ==> FilteredCompanies(data, industry, term) == Loaded(data)
  {
    FilterIsSubsequence(Loaded(data), Keep(industry, term));
    if industry == AllIndustries && term == "" {
      FilterAll(Loaded(data), Keep(industry, term));
    }
  }

  /** `uniqueIndustries`: each industry that occurs, once. */
  function UniqueIndustries(data: Option<seq<Company>>): (r: seq<string>)
    ensures NoDuplicates(r)
    ensures forall x :: x in r <==> exists c :: c in Loaded(data) && c.industry == x
  {
    var cs := Loaded(data);
    var xs := Map(cs, (c: Company) => c.industry);
    assert forall x :: x in xs <==> exists c :: c in cs && c.industry == x by {
      forall x ensures x in xs <==> exists c :: c in cs && c.industry == x {
        if x in xs {
          var i :| 0 <= i < |xs| && xs[i] == x;
          assert cs[i] in cs;
        }
        if exists c :: c in cs && c.industry == x {
          var c :| c in cs && c.industry == x;
          var i :| 0 <= i < |cs| && cs[i] == c;
          assert xs[i] == x;
        }
      }
    }
    Distinct(xs)
  }

  /** `companies.reduce((sum, company) => sum + company.openPositions, 0)` */
  function OpenPositionsTotal(cs: seq<Company>): (r: int)
    ensures (forall c :: c in cs ==> c.openPositions >= 0) ==> r >= 0
    ensures (forall c :: c in cs ==> c.openPositions == 0) ==> r == 0
    decreases |cs|
  {
    if |cs| == 0 then 0 else OpenPositionsTotal(cs[..|cs| - 1]) + cs[|cs| - 1].openPositions
  }

  function IsActive(): Company -> bool {
    (c: Company) => c.openPositions > 0
  }

  /** The three summary cards. */
  datatype Summary = Summary(total: nat, openPositions: int, activeClients: nat)

  /** Total Companies, Open Positions and Active Clients: `None` while the fetch is under way,
      when each card shows `'...'`; otherwise the list's length, the sum of its open positions
      and the number of companies with any, all zero when the fetch gave no list. */
  function Dashboard(data: Option<seq<Company>>, loading: bool): (r: Option<Summary>)
    ensures r.None? <==> loading
    ensures r.Some? ==> r.value.total == |Loaded(data)|
    ensures r.Some? ==> r.value.openPositions == OpenPositionsTotal(Loaded(data))
    ensures r.Some? ==> r.value.activeClients == |Filter(Loaded(data), IsActive())|
    ensures r.Some? ==> r.value.activeClients <= r.value.total
    ensures r.Some? && (forall c :: c in Loaded(data) ==> c.openPositions >= 0) ==>
      r.value.activeClients <= r.value.openPositions
    ensures r.Some? && data.None? ==> r.value == Summary(0, 0, 0)
  {
    if loading then None
    else
      var cs := Loaded(data);
      ActiveWithinOpen(cs);
      Some(Summary(|cs|, OpenPositionsTotal(cs), |Filter(cs, IsActive())|))
  }

  /** Active Clients is bounded by Open Positions whenever the counts are non-negative. */
  lemma ActiveWithinOpen(cs: seq<Company>)
    ensures (forall c :: c in cs ==> c.openPositions >= 0) ==> |Filter(cs, IsActive())| <= OpenPositionsTotal(cs)
  {
    if forall c :: c in cs ==> c.openPositions >= 0 {
      ActiveClientsAtMostOpenPositions(cs);
    }
  }

  /** The open-positions total of two lists is the sum of their totals. */
  lemma {:induction false} OpenPositionsTotalAppend(xs: seq<Company>, ys: seq<Company>)
    ensures OpenPositionsTotal(xs + ys) == OpenPositionsTotal(xs) + OpenPositionsTotal(ys)
    decreases |ys|
  {
    if |ys| > 0 {
      var init := ys[..|ys| - 1];
      assert (xs + ys)[..|xs + ys| - 1] == xs + init;
      OpenPositionsTotalAppend(xs, init);
    } else {
      assert xs + ys == xs;
    }
  }

  /** When no company has a negative count, each active client contributes at least one open
      position, so Active Clients never exceeds Open Positions. */
  lemma {:induction false} ActiveClientsAtMostOpenPositions(cs: seq<Company>)
    requires forall c :: c in cs ==> c.openPositions >= 0
    ensures |Filter(cs, IsActive())| <= OpenPositionsTotal(cs)
    ensures OpenPositionsTotal(cs) >= 0
    decreases |cs|
  {
    if |cs| > 0 {
      var rest := cs[1..];
      ActiveClientsAtMostOpenPositions(rest);
      assert cs == [cs[0]] + rest;
      OpenPositionsTotalAppend([cs[0]], rest);
      assert [cs[0]][..0] == [];
    }
  }

  function HasId(id: string): Company -> bool {
    (c: Company) => c.id == id
  }

  /** `companies?.find(c => c.id === id) || null` */
  function FindCompany(data: Option<seq<Company>>, id: string): (r: Option<Company>)
    ensures r.Some? ==> r.value in Loaded(data) && r.value.id == id
    ensures r.Some? ==> exists i :: 0 <= i < |Loaded(data)| && Loaded(data)[i] == r.value
                          && forall j :: 0 <= j < i ==> Loaded(data)[j].id != id
    ensures r.None? <==> forall c :: c in Loaded(data) ==> c.id != id
  {
    Find(Loaded(data), HasId(id))
  }

  /** A call the page makes to the companies API. */
  datatype CompanyCall =
    | CreateCompany(company: Company)
    | UpdateCompany(id: string, company: Company)

  /** `handleSaveCompany`: create a record with a temporary id, update any other. */
  function SaveCall(c: Company): (r: CompanyCall)
    ensures r.CreateCompany? <==> StartsWith(c.id, TempPrefix)
    ensures r.company == c
    ensures r.UpdateCompany? ==> r.id == c.id
  {
    match RouteFor(c.id)
    case Create => CreateCompany(c)
    case Update => UpdateCompany(c.id, c)
  }

  /** The page's state: the fetched list, the search box, the industry select, the selected
      company, and the API calls made so far. */
  class CompaniesPage {
    var companies: Option<seq<Company>>
    var searchTerm: string
    var industryFilter: string
    var selected: Option<Company>
    var calls: seq<CompanyCall>

    constructor (data: Option<seq<Company>>)
      ensures companies == data && searchTerm == "" && industryFilter == AllIndustries
      ensures selected == None && calls == []
    {
      companies := data;
      searchTerm := "";
      industryFilter := AllIndustries;
      selected := None;
      calls := [];
    }

    /** The rows of the table. */
    function Rows(): seq<Company>
      reads this
    {
      FilteredCompanies(companies, industryFilter, searchTerm)
    }

    method SetSearchTerm(term: string)
      modifies this
      ensures searchTerm == term
      ensures companies == old(companies) && industryFilter == old(industryFilter)
      ensures selected == old(selected) && calls == old(calls)
      ensures forall c :: c in Rows() <==> c in Loaded(companies) && Passes(c, industryFilter, term)
    {
      searchTerm := term;
      FilteredCompaniesSelects(companies, industryFilter, term);
    }

    method SetIndustryFilter(industry: string)
      modifies this
      ensures industryFilter == industry
      ensures companies == old(companies) && searchTerm == old(searchTerm)
      ensures selected == old(selected) && calls == old(calls)
      ensures forall c :: c in Rows() <==> c in Loaded(companies) && Passes(c, industry, searchTerm)
    {
      industryFilter := industry;
      FilteredCompaniesSelects(companies, industry, searchTerm);
    }

    /** `handleCompanyClick` */
    method ClickCompany(id: string)
      modifies this
      ensures selected == FindCompany(companies, id)
      ensures companies == old(companies) && searchTerm == old(searchTerm)
      ensures industryFilter == old(industryFilter) && calls == old(calls)
    {
      selected := FindCompany(companies, id);
    }

    /** `handleSaveCompany` */
    method SaveCompany(c: Company)
      modifies this
      ensures calls == old(calls) + [SaveCall(c)]
      ensures companies == old(companies) && searchTerm == old(searchTerm)
      ensures industryFilter == old(industryFilter) && selected == old(selected)
    {
      calls := calls + [SaveCall(c)];
    }
  }
}
