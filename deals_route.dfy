/**
 * `GET /api/deals`: the catalogue, optionally narrowed to one category
 * and to deals whose title, description or partner name matches a
 * case-insensitive search pattern, newest first.
 */
module DealsRoute {
  import opened Wrappers
  import opened Json
  import opened Collections
  import opened External
  import opened Models
  import opened Http

  /** The `query` object: a category to equal, a pattern to search; each set only when given non-empty. */
  datatype DealQuery = DealQuery(category: Option<string>, search: Option<string>)

  function BuildQuery(category: Option<string>, search: Option<string>): (q: DealQuery)
    ensures q.category.Some? <==> NonEmpty(category)
    ensures q.search.Some? <==> NonEmpty(search)
    ensures q.category.Some? ==> q.category == category
    ensures q.search.Some? ==> q.search == search
  {
    DealQuery(if NonEmpty(category) then category else None,
              if NonEmpty(search) then search else None)
  }

  /** MongoDB's reading of the query: the category equality and the `$or` over three fields. */
  predicate Matches(q: DealQuery, svc: Services, d: Deal) {
    && (q.category.Some? ==> d.category == q.category.value)
    && (q.search.Some? ==>
          svc.regexMatches(q.search.value, d.title) ||
          svc.regexMatches(q.search.value, d.description) ||
          svc.regexMatches(q.search.value, d.partnerName))
  }

  function DealCreatedAt(d: Deal): int {
    d.createdAt
  }

  /** `Deal.find(query).sort({ createdAt: -1 })`; a pattern MongoDB cannot compile throws. */
  function ListOutcome(deals: seq<Deal>, category: Option<string>, search: Option<string>,
                       svc: Services): (r: Outcome<seq<Deal>>)
    ensures r.Fail? ==> r == ServerError()
    ensures r.Ok? <==> !(NonEmpty(search) && !svc.regexCompiles(search.value))
  {
    var q := BuildQuery(category, search);
    if q.search.Some? && !svc.regexCompiles(q.search.value) then ServerError()
    else Ok(SortByKeyDesc(Filter(deals, (d: Deal) => Matches(q, svc, d)), DealCreatedAt))
  }

  /**
   * The listing holds each deal as often as the catalogue does when it
   * passes every filter that was given (category equality, and a search
   * match on title, description or partner name), and no other; it is
   * newest first.
   */
  lemma ListSelectsExactly(deals: seq<Deal>, category: Option<string>, search: Option<string>, svc: Services)
    requires ListOutcome(deals, category, search, svc).Ok?
    ensures var listed := ListOutcome(deals, category, search, svc).value;
            && SortedDesc(listed, DealCreatedAt)
            && forall d :: multiset(listed)[d] ==
                 if (NonEmpty(category) ==> d.category == category.value) &&
                    (NonEmpty(search) ==> svc.regexMatches(search.value, d.title) ||
                                          svc.regexMatches(search.value, d.description) ||
                                          svc.regexMatches(search.value, d.partnerName))
                 then multiset(deals)[d] else 0
  {
  }

  /** With neither a category nor a search pattern, the listing is the whole catalogue, reordered. */
  lemma NoFilterListsEverything(deals: seq<Deal>, svc: Services)
    ensures ListOutcome(deals, None, None, svc).Ok?
    ensures multiset(ListOutcome(deals, None, None, svc).value) == multiset(deals)
  {
  }
}
