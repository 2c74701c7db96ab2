/** `filter_cvs_by_query` (main/filters/cv_filters.py): the CV list's name search. */
module CvFilters {
  import opened Wrappers
  import opened Text
  import opened Models
  import Seqs

  /** `firstname__icontains=q | lastname__icontains=q`, with ASCII case folding. */
  predicate Matches(cv: Cv, q: string) {
    Contains(Lower(cv.firstname), Lower(q)) || Contains(Lower(cv.lastname), Lower(q))
  }

  /**
   * The CVs whose first or last name contains the stripped query, ignoring case, in the
   * order given; all of them when the query is missing or blank.
   */
  function FilterCvsByQuery(cvs: seq<Cv>, query: Option<string>): (r: seq<Cv>)
    ensures Strip(query.GetOr("")) == "" ==> r == cvs
    ensures Strip(query.GetOr("")) != "" ==>
              forall c :: c in r <==> c in cvs && Matches(c, Strip(query.GetOr("")))
    ensures Strip(query.GetOr("")) != "" ==>
              forall c :: multiset(r)[c] == if Matches(c, Strip(query.GetOr(""))) then multiset(cvs)[c] else 0
    ensures Seqs.SubsequenceOf(r, cvs)
  {
    var q := Strip(query.GetOr(""));
    if q == "" then
      Seqs.FilterAllPass(cvs, (c: Cv) => true);
      cvs
    else Seqs.Filter(cvs, (c: Cv) => Matches(c, q))
  }

  /** Searching the result of a search again with the same query changes nothing. */
  lemma SearchIdempotent(cvs: seq<Cv>, query: Option<string>)
    ensures FilterCvsByQuery(FilterCvsByQuery(cvs, query), query) == FilterCvsByQuery(cvs, query)
  {
    var q := Strip(query.GetOr(""));
    if q != "" {
      Seqs.FilterIdempotent(cvs, (c: Cv) => Matches(c, q));
    }
  }

  /** Blanks around the query do not change the result. */
  lemma QueryNormalised(cvs: seq<Cv>, query: string)
    ensures FilterCvsByQuery(cvs, Some(Strip(query))) == FilterCvsByQuery(cvs, Some(query))
  {
    StripIdempotent(query);
  }
}
