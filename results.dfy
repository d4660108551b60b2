/** The admin results hub: the search over candidates and applied positions, the pages of
    ten records, and the per-record counters and badges (src/pages/admin/results.jsx). */
module Results {
  import opened Common
  import opened Text

  /** A candidate as the results list carries it; a null father_name is "". */
  datatype Candidate = Candidate(name: string, fatherName: string)

  /** One reviewed question of a result; a null text field is "". */
  datatype ReviewEntry = ReviewEntry(positionName: string, questionType: string, status: string,
                                     candidateAnswer: string, correctAnswer: string)

  /** One result; `review` is None when the field is absent. */
  datatype ResultRecord = ResultRecord(candidate: Candidate, review: Option<seq<ReviewEntry>>)

  const RecordsPerPage: int := 10

  // ===== the applied position =====

  /** The offset of the first review entry that carries a position name, |review| when
      none does. */
  function FirstNamed(review: seq<ReviewEntry>): (k: nat)
    ensures k <= |review|
    ensures forall j | 0 <= j < k :: review[j].positionName == ""
    ensures k < |review| ==> review[k].positionName != ""
  {
    if review == [] || review[0].positionName != "" then 0 else 1 + FirstNamed(review[1..])
  }

  /** `r.review?.find(q => q.position_name)?.position_name || ""`, used by the search. */
  function SearchPosition(r: ResultRecord): string {
    match r.review
    case None => ""
    case Some(review) =>
      var k := FirstNamed(review);
      if k < |review| then review[k].positionName else ""
  }

  /** The same lookup with "General" as the default, used by the record header. */
  function DisplayedPosition(r: ResultRecord): string {
    var p := SearchPosition(r);
    if p == "" then "General" else p
  }

  predicate NoNamedEntry(r: ResultRecord) {
    r.review.None? || forall j | 0 <= j < |r.review.value| :: r.review.value[j].positionName == ""
  }

  /** With no named review entry the search sees "" and the header shows "General";
      otherwise both use the name of the first named entry. */
  lemma PositionDefaults(r: ResultRecord)
    ensures NoNamedEntry(r) <==> SearchPosition(r) == ""
    ensures NoNamedEntry(r) ==> DisplayedPosition(r) == "General"
    ensures !NoNamedEntry(r) ==>
      var k := FirstNamed(r.review.value);
      && k < |r.review.value|
      && SearchPosition(r) == DisplayedPosition(r) == r.review.value[k].positionName
  {
    if r.review.Some? && !NoNamedEntry(r) {
      var review := r.review.value;
      var j :| 0 <= j < |review| && review[j].positionName != "";
      assert FirstNamed(review) <= j;
    }
  }

  // ===== the search filter =====

  /** A record matches when the lower-cased term occurs in the lower-cased name, applied
      position or father's name. */
  predicate MatchesSearch(r: ResultRecord, term: string) {
    var t := Lower(term);
    || Contains(Lower(r.candidate.name), t)
    || Contains(Lower(SearchPosition(r)), t)
    || Contains(Lower(r.candidate.fatherName), t)
  }

  /** `results.filter(...)` */
  function FilterResults(rs: seq<ResultRecord>, term: string): (f: seq<ResultRecord>)
    ensures |f| <= |rs|
    ensures forall x | x in f :: x in rs && MatchesSearch(x, term)
  {
    if rs == [] then []
    else (if MatchesSearch(rs[0], term) then [rs[0]] else []) + FilterResults(rs[1..], term)
  }

  /** Every matching record is kept. */
  lemma {:induction false} FilterComplete(rs: seq<ResultRecord>, term: string, i: int)
    requires 0 <= i < |rs| && MatchesSearch(rs[i], term)
    ensures rs[i] in FilterResults(rs, term)
  {
    if i > 0 {
      FilterComplete(rs[1..], term, i - 1);
    }
  }

  /** xs is ys with some elements left out, the rest in their order. */
  predicate Subsequence<T(==)>(xs: seq<T>, ys: seq<T>)
    decreases |ys|
  {
    xs == [] || (ys != [] && ((xs[0] == ys[0] && Subsequence(xs[1..], ys[1..])) || Subsequence(xs, ys[1..])))
  }

  /** The filter keeps the records in their order. */
  lemma {:induction false} FilterKeepsOrder(rs: seq<ResultRecord>, term: string)
    ensures Subsequence(FilterResults(rs, term), rs)
  {
    if rs != [] {
      FilterKeepsOrder(rs[1..], term);
      var f := FilterResults(rs, term);
      if MatchesSearch(rs[0], term) {
        assert f[0] == rs[0] && f[1..] == FilterResults(rs[1..], term);
      } else {
        assert f == FilterResults(rs[1..], term);
      }
    }
  }

  /** The filter keeps every copy of a matching record and no copy of any other, so
      with FilterKeepsOrder it determines the result exactly. */
  lemma {:induction false} FilterMultiplicity(rs: seq<ResultRecord>, term: string, x: ResultRecord)
    ensures multiset(FilterResults(rs, term))[x] == if MatchesSearch(x, term) then multiset(rs)[x] else 0
  {
    if rs != [] {
      FilterMultiplicity(rs[1..], term, x);
      assert rs == [rs[0]] + rs[1..];
    }
  }

  lemma ContainsEmpty(hay: string)
    ensures Contains(hay, "")
  {
    assert hay[..0] == "";
  }

  /** An empty search keeps every record. */
  lemma {:induction false} EmptySearchKeepsAll(rs: seq<ResultRecord>)
    ensures FilterResults(rs, "") == rs
  {
    if rs != [] {
      ContainsEmpty(Lower(rs[0].candidate.name));
      assert Lower("") == "";
      EmptySearchKeepsAll(rs[1..]);
    }
  }

  // ===== pagination =====

  /** A `slice` bound: negative counts from the end, then clamped to [0, len]. */
  function SliceBound(i: int, len: nat): (r: nat)
    ensures r <= len
  {
    if i < 0 then Max(len + i, 0) else Min(i, len)
  }

  /** `xs.slice(start, end)` */
  function JsSlice<T>(xs: seq<T>, start: int, end: int): seq<T> {
    var a := SliceBound(start, |xs|);
    var b := SliceBound(end, |xs|);
    if a < b then xs[a..b] else []
  }

  /** The records on page p: `slice(p * 10 - 10, p * 10)`. */
  function PageOf<T>(f: seq<T>, p: int): seq<T> {
    JsSlice(f, p * RecordsPerPage - RecordsPerPage, p * RecordsPerPage)
  }

  /** No page holds more than ten records, whatever the page number; from page 1 on the
      page is the run of records from (p - 1) * 10 up to p * 10, clipped at the end of the
      list. */
  lemma PageShape<T>(f: seq<T>, p: int)
    ensures |PageOf(f, p)| <= RecordsPerPage
    ensures p >= 1 ==> PageOf(f, p) == f[Min((p - 1) * RecordsPerPage, |f|)..Min(p * RecordsPerPage, |f|)]
  {
  }

  /** `Math.ceil(n / 10)` */
  function TotalPages(n: nat): (t: nat)
    ensures t * RecordsPerPage >= n
    ensures n > 0 ==> (t - 1) * RecordsPerPage < n
    ensures n == 0 ==> t == 0
  {
    (n + RecordsPerPage - 1) / RecordsPerPage
  }

  /** Pages 1 to k, one after the other. */
  function PagesUpTo<T>(f: seq<T>, k: nat): seq<T> {
    if k == 0 then [] else PagesUpTo(f, k - 1) + PageOf(f, k)
  }

  lemma {:induction false} PagesUpToPrefix<T>(f: seq<T>, k: nat)
    ensures PagesUpTo(f, k) == f[..Min(k * RecordsPerPage, |f|)]
  {
    if k > 0 {
      PagesUpToPrefix(f, k - 1);
      PageShape(f, k);
      var lo := Min((k - 1) * RecordsPerPage, |f|);
      var hi := Min(k * RecordsPerPage, |f|);
      assert f[..lo] + f[lo..hi] == f[..hi];
    }
  }

  /** Reading all pages in order gives back the filtered list. */
  lemma PagesReassemble<T>(f: seq<T>)
    ensures PagesUpTo(f, TotalPages(|f|)) == f
  {
    PagesUpToPrefix(f, TotalPages(|f|));
    assert f[..|f|] == f;
  }

  // ===== per-record figures =====

  predicate IsWritten(q: ReviewEntry) {
    Lower(q.questionType) == "written"
  }

  /** The number of review entries whose type lower-cases to "written". */
  function CountWritten(review: seq<ReviewEntry>): (n: nat)
    ensures n <= |review|
    ensures n == 0 <==> forall i | 0 <= i < |review| :: !IsWritten(review[i])
    ensures n == |review| <==> forall i | 0 <= i < |review| :: IsWritten(review[i])
  {
    if review == [] then 0
    else (if IsWritten(review[0]) then 1 else 0) + CountWritten(review[1..])
  }

  lemma {:induction false} CountWrittenAppend(xs: seq<ReviewEntry>, ys: seq<ReviewEntry>)
    ensures CountWritten(xs + ys) == CountWritten(xs) + CountWritten(ys)
  {
    if xs != [] {
      assert (xs + ys)[1..] == xs[1..] + ys;
      CountWrittenAppend(xs[1..], ys);
    } else {
      assert xs + ys == ys;
    }
  }

  /** `r.review?.filter(...).length || 0` */
  function WrittenCount(r: ResultRecord): nat {
    match r.review
    case None => 0
    case Some(review) => CountWritten(review)
  }

  datatype Badge = CorrectBadge | PendingBadge | IncorrectBadge

  /** statusBadge */
  function StatusBadge(status: string): (b: Badge)
    ensures b == CorrectBadge <==> status == "Correct"
    ensures b == PendingBadge <==> status == "Pending"
    ensures b == IncorrectBadge <==> status != "Correct" && status != "Pending"
  {
    if status == "Correct" then CorrectBadge
    else if status == "Pending" then PendingBadge
    else IncorrectBadge
  }

  datatype Cell = NotAnswered | Answer(text: string) | ManualCheck

  /** renderAnswer: a falsy text reads "Not Answered". */
  function RenderAnswer(text: string): (c: Cell)
    ensures c == NotAnswered <==> text == ""
    ensures c != NotAnswered ==> c == Answer(text)
  {
    if text == "" then NotAnswered else Answer(text)
  }

  /** The "correct answer" cell: written questions need a manual check. */
  function CorrectAnswerCell(q: ReviewEntry): (c: Cell)
    ensures c == ManualCheck <==> IsWritten(q)
    ensures !IsWritten(q) ==> c == RenderAnswer(q.correctAnswer)
  {
    if IsWritten(q) then ManualCheck else RenderAnswer(q.correctAnswer)
  }

  // ===== page-button transitions =====

  datatype PageButton = PreviousPage | NextPage

  /** A press on a pagination button; previous is disabled on page 1, next on the last. */
  function PressPage(p: int, total: nat, b: PageButton): int {
    match b
    case PreviousPage => if p == 1 then p else p - 1
    case NextPage => if p == total then p else p + 1
  }

  function PressAll(p: int, total: nat, bs: seq<PageButton>): int
    decreases |bs|
  {
    if bs == [] then p else PressAll(PressPage(p, total, bs[0]), total, bs[1..])
  }

  /** While the buttons are shown (more than one page), presses keep the page between 1
      and the number of pages. */
  lemma {:induction false} PressesStayInRange(p: int, total: nat, bs: seq<PageButton>)
    requires total > 1 && 1 <= p <= total
    ensures 1 <= PressAll(p, total, bs) <= total
    decreases |bs|
  {
    if bs != [] {
      PressesStayInRange(PressPage(p, total, bs[0]), total, bs[1..]);
    }
  }

  // ===== the page =====

  class ResultsPage {
    var results: seq<ResultRecord>
    var loading: bool
    var searchTerm: string
    var currentPage: int

    function Filtered(): seq<ResultRecord>
      reads this
    {
      FilterResults(results, searchTerm)
    }

    function PageCount(): nat
      reads this
    {
      TotalPages(|Filtered()|)
    }

    /** The records rendered. */
    function CurrentRecords(): seq<ResultRecord>
      reads this
    {
      PageOf(Filtered(), currentPage)
    }

    /** The page number is at least 1, and past page 1 only while that page exists. */
    ghost predicate Valid()
      reads this
    {
      && 1 <= currentPage
      && (currentPage == 1 || currentPage <= PageCount())
      && (loading ==> currentPage == 1)
    }

    constructor ()
      ensures results == [] && loading && searchTerm == "" && currentPage == 1 && Valid()
    {
      results := [];
      loading := true;
      searchTerm := "";
      currentPage := 1;
    }

    /** The results request settles: its rows replace the list; either way the spinner
        goes. */
    method Loaded(response: Response<seq<ResultRecord>>)
      requires Valid() && loading
      modifies this
      ensures results == (if response.Ok? then response.data else old(results))
      ensures !loading && searchTerm == old(searchTerm) && currentPage == old(currentPage)
      ensures Valid()
    {
      if response.Ok? {
        results := response.data;
      }
      loading := false;
    }

    /** Typing in the search box: the term changes and the page goes back to 1. */
    method Search(term: string)
      requires Valid()
      modifies this
      ensures searchTerm == term && currentPage == 1
      ensures results == old(results) && loading == old(loading)
      ensures Valid()
    {
      searchTerm := term;
      currentPage := 1;
    }

    /** A pagination button, shown only once loaded and with more than one page. */
    method Press(b: PageButton)
      requires Valid()
      modifies this
      ensures currentPage == (if !loading && PageCount() > 1 then PressPage(old(currentPage), PageCount(), b)
                              else old(currentPage))
      ensures results == old(results) && searchTerm == old(searchTerm) && loading == old(loading)
      ensures Valid()
      ensures PageCount() > 1 ==> 1 <= currentPage <= PageCount()
    {
      if !loading && PageCount() > 1 {
        match b
        case PreviousPage =>
          if currentPage != 1 {
            currentPage := currentPage - 1;
          }
        case NextPage =>
          if currentPage != PageCount() {
            currentPage := currentPage + 1;
          }
      }
    }
  }
}
