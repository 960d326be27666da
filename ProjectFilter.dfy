/**
 * The project filter of the portfolio page and the list of tag buttons.
 *
 * A query `q` and a selected tag `tag` keep a project when the trimmed,
 * lowercased query is empty or occurs in the project's lowercased
 * `title summary tech…` text, and the tag is empty or equals one of the
 * project's lowercased tech tags. The tag buttons offer each lowercased tech
 * tag once, in the default string sort order.
 */
module ProjectFilter {
  import opened JsString
  import opened TagOrder
  import opened JsArray
  import opened Projects

  // ---------------------------------------------------------------------------
  // What a project is matched against
  // ---------------------------------------------------------------------------

  /** The text a query is searched in: title, summary and tech tags joined by spaces, lowercased. */
  function SearchText(p: Project): (r: string)
    ensures IsLowerCase(r)
    ensures IsInfix(Lower(p.title), r) && IsInfix(Lower(p.summary), r)
    ensures forall k :: 0 <= k < |p.tech| ==> IsInfix(Lower(p.tech[k]), r)
  {
    var parts := [p.title, p.summary] + p.tech;
    var text := Join(parts, " ");
    LowerIsLowerCase(text);
    forall k | 0 <= k < |parts| ensures IsInfix(Lower(parts[k]), Lower(text)) {
      LowerOfInfix(parts, k, text);
    }
    assert parts[0] == p.title && parts[1] == p.summary;
    assert forall k :: 0 <= k < |p.tech| ==> parts[k + 2] == p.tech[k];
    Lower(text)
  }

  /** Each part of the joined search text occurs in it once both are lowercased. */
  lemma LowerOfInfix(parts: seq<string>, k: nat, text: string)
    requires k < |parts| && text == Join(parts, " ")
    ensures IsInfix(Lower(parts[k]), Lower(text))
  {
    PartIsInfixOfJoin(parts, " ", k);
    LowerKeepsInfix(parts[k], text);
  }

  /** Each string of `ts`, lowercased. */
  function LowerAll(ts: seq<string>): (r: seq<string>)
    ensures |r| == |ts|
    ensures forall i :: 0 <= i < |ts| ==> r[i] == Lower(ts[i])
  {
    if ts == [] then [] else [Lower(ts[0])] + LowerAll(ts[1..])
  }

  /** A project's tech tags, lowercased: what a selected tag is compared with. */
  function LowerTags(p: Project): (r: seq<string>)
    ensures |r| == |p.tech|
    ensures forall i :: 0 <= i < |p.tech| ==> r[i] == Lower(p.tech[i])
  {
    LowerAll(p.tech)
  }

  /** The search term made from the query: trimmed, then lowercased. It is empty exactly when the query is blank. */
  function Term(q: string): (r: string)
    ensures IsLowerCase(r)
    ensures r == [] <==> IsBlank(q)
    ensures |r| <= |q|
  {
    LowerIsLowerCase(Trim(q));
    Lower(Trim(q))
  }

  // ---------------------------------------------------------------------------
  // The filter
  // ---------------------------------------------------------------------------

  /** The text test: an empty term matches everything, otherwise the term must occur in the search text. */
  predicate MatchesText(p: Project, term: string): (r: bool)
    ensures r <==> term == [] || IsInfix(term, SearchText(p))
  {
    term == [] || Includes(SearchText(p), term)
  }

  /** The tag test: an empty tag matches everything, otherwise it must be one of the lowercased tech tags. */
  predicate MatchesTag(p: Project, tag: string) {
    tag == [] || tag in LowerTags(p)
  }

  /** Whether the filter keeps `p` for the search term `term` and the tag `tag`. */
  predicate Keeps(p: Project, term: string, tag: string) {
    MatchesText(p, term) && MatchesTag(p, tag)
  }

  /** The tag test passes exactly when no tag is selected or some tech tag of `p`, lowercased, is the selected one. */
  lemma MatchesTagMeaning(p: Project, tag: string)
    ensures MatchesTag(p, tag) <==> tag == [] || exists i :: 0 <= i < |p.tech| && Lower(p.tech[i]) == tag
  {
  }

  /** The callback keeps `p` exactly when both tests pass, stated without the library calls. */
  lemma KeepsMeaning(p: Project, term: string, tag: string)
    ensures Keeps(p, term, tag) <==>
      (term == [] || IsInfix(term, SearchText(p)))
      && (tag == [] || exists i :: 0 <= i < |p.tech| && Lower(p.tech[i]) == tag)
  {
    MatchesTagMeaning(p, tag);
  }

  /** The list of projects shown for the query `q` and the selected tag `tag`: `ps.filter(...)` with the callback above. */
  function Filtered(ps: seq<Project>, q: string, tag: string): (r: seq<Project>)
    ensures |r| <= |ps|
    ensures forall p :: p in r <==>
      p in ps
      && (IsBlank(q) || IsInfix(Term(q), SearchText(p)))
      && (tag == [] || tag in LowerTags(p))
  {
    FilterMembers(ps, p => Keeps(p, Term(q), tag));
    Filter(ps, p => Keeps(p, Term(q), tag))
  }

  // ---------------------------------------------------------------------------
  // Properties of the filter
  // ---------------------------------------------------------------------------

  /** The projects shown are the subsequence of `ps` at the positions whose project passes both tests. */
  lemma FilteredIsOrderedSelection(ps: seq<Project>, q: string, tag: string)
    ensures exists idx ::
      PicksAt(Filtered(ps, q, tag), ps, idx)
      && forall i :: 0 <= i < |ps| ==> (i in idx <==> Keeps(ps[i], Term(q), tag))
  {
    var keep := p => Keeps(p, Term(q), tag);
    FilterIsOrderedSelection(ps, keep);
    var idx :| SelectsExactly(Filter(ps, keep), ps, keep, idx);
    assert PicksAt(Filtered(ps, q, tag), ps, idx);
  }

  /** A project is shown as often as it occurs in `ps` when it passes, and not at all otherwise. */
  lemma FilteredCounts(ps: seq<Project>, q: string, tag: string, p: Project)
    ensures multiset(Filtered(ps, q, tag))[p] == if Keeps(p, Term(q), tag) then multiset(ps)[p] else 0
  {
    FilterCounts(ps, p => Keeps(p, Term(q), tag), p);
  }

  /** Filtering twice with the same query and tag is filtering once. */
  lemma FilteredIdempotent(ps: seq<Project>, q: string, tag: string)
    ensures Filtered(Filtered(ps, q, tag), q, tag) == Filtered(ps, q, tag)
  {
    FilterIdempotent(ps, p => Keeps(p, Term(q), tag));
  }

  /** A blank query with no tag selected shows every project, in order. */
  lemma BlankQueryShowsAll(ps: seq<Project>, q: string)
    requires IsBlank(q)
    ensures Filtered(ps, q, "") == ps
  {
    FilterAllKept(ps, p => Keeps(p, Term(q), ""));
  }

  // ---------------------------------------------------------------------------
  // The tag buttons
  // ---------------------------------------------------------------------------

  /** Every project's lowercased tags, project after project: a string is among them exactly when some project carries it. */
  function FlatTags(ps: seq<Project>): (r: seq<string>)
    ensures forall x :: x in r <==> exists p :: p in ps && x in LowerTags(p)
  {
    if ps == [] then []
    else
      assert forall p :: p in ps <==> p == ps[0] || p in ps[1..];
      LowerTags(ps[0]) + FlatTags(ps[1..])
  }

  /** The tag buttons: each lowercased tech tag once, in the default sort order. */
  function AllTags(ps: seq<Project>): (r: seq<string>)
    ensures StrictlySorted(r)
    ensures forall x :: x in r <==> x in FlatTags(ps)
    ensures forall x :: x in r <==> exists p :: p in ps && x in LowerTags(p)
  {
    var d := Dedup(FlatTags(ps));
    var r := Sort(d);
    PermutationKeepsDistinct(d, r);
    SortedDistinctIsStrictlySorted(r);
    assert forall x :: x in r <==> x in d by {
      forall x ensures x in r <==> x in d {
        assert x in r <==> x in multiset(r);
        assert x in d <==> x in multiset(d);
      }
    }
    r
  }

  /** The tag buttons are the one strictly sorted list holding exactly the lowercased tags. */
  lemma AllTagsUnique(ps: seq<Project>, expected: seq<string>)
    requires StrictlySorted(expected)
    requires forall x :: x in expected <==> x in FlatTags(ps)
    ensures AllTags(ps) == expected
  {
    StrictlySortedUnique(AllTags(ps), expected);
  }

  /** Pressing any tag button shows at least one project: one that carries the tag. */
  lemma EveryTagButtonShowsAProject(ps: seq<Project>, t: string)
    requires t in AllTags(ps)
    ensures Filtered(ps, "", t) != []
  {
    var p :| p in ps && t in LowerTags(p);
    assert IsBlank("");
    assert p in Filtered(ps, "", t);
  }
}
