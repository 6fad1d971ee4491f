/**
 * getAllTherapists: the public listing's filter, its sort selection, and
 * the page it returns with its pagination block.
 */
module TherapistListing {
  import opened Common
  import opened TherapistModel
  import opened Pagination

  /** The query string after parsing; an empty value is absent. */
  datatype ListQuery = ListQuery(
    specialization: Option<string>, minRating: Option<real>, maxRate: Option<real>, minRate: Option<real>,
    minExperience: Option<int>, verifiedOnly: Option<string>, sortBy: Option<string>)

  /**
   * The listing filter: exact specialization membership, lower and upper
   * bounds, and verified profiles only when verifiedOnly is "true"; with
   * no verifiedOnly, pending and rejected profiles are listed too.
   */
  predicate ListMatches(q: ListQuery, t: TherapistProfile) {
    && (q.specialization.Some? ==> q.specialization.value in t.specializations)
    && (q.minRating.Some? ==> t.averageRating >= q.minRating.value)
    && (q.minRate.Some? ==> t.sessionRate >= q.minRate.value)
    && (q.maxRate.Some? ==> t.sessionRate <= q.maxRate.value)
    && (q.minExperience.Some? ==> t.yearsOfExperience >= q.minExperience.value)
    && (q.verifiedOnly == Some("true") ==> t.verificationStatus == Verified)
  }

  /** Therapist.find(filter) over the collection, in stored order. */
  function Filtered(q: ListQuery, all: seq<TherapistProfile>): (r: seq<TherapistProfile>)
    ensures forall t | t in r :: t in all && ListMatches(q, t)
    ensures forall t | t in all && ListMatches(q, t) :: t in r
    ensures |r| <= |all|
  {
    if all == [] then []
    else (if ListMatches(q, all[0]) then [all[0]] else []) + Filtered(q, all[1..])
  }

  datatype SortOrder = RatingDescending | ExperienceDescending | RateAscending | RateDescending | NewestFirst

  function SortOrderOf(sortBy: Option<string>): (o: SortOrder)
    ensures sortBy == Some("rating") <==> o == RatingDescending
    ensures sortBy == Some("experience") <==> o == ExperienceDescending
    ensures sortBy == Some("rate-asc") <==> o == RateAscending
    ensures sortBy == Some("rate-desc") <==> o == RateDescending
  {
    if sortBy == Some("rating") then RatingDescending
    else if sortBy == Some("experience") then ExperienceDescending
    else if sortBy == Some("rate-asc") then RateAscending
    else if sortBy == Some("rate-desc") then RateDescending
    else NewestFirst
  }

  /**
   * x may precede y in the given order. createdAt is not part of the
   * model: profiles are stored in creation order, so NewestFirst is
   * the reversed collection (see Arrange), and any two profiles may
   * stand in it either way round.
   */
  predicate InOrder(o: SortOrder, x: TherapistProfile, y: TherapistProfile) {
    match o
    case RatingDescending => x.averageRating >= y.averageRating
    case ExperienceDescending => x.yearsOfExperience >= y.yearsOfExperience
    case RateAscending => x.sessionRate <= y.sessionRate
    case RateDescending => x.sessionRate >= y.sessionRate
    case NewestFirst => true
  }

  predicate SortedBy(o: SortOrder, s: seq<TherapistProfile>) {
    forall i, j | 0 <= i < j < |s| :: InOrder(o, s[i], s[j])
  }

  lemma InOrderTotal(o: SortOrder, x: TherapistProfile, y: TherapistProfile)
    ensures InOrder(o, x, y) || InOrder(o, y, x)
  {
  }

  /** A sorted sequence stays sorted under a new head that may precede every entry. */
  lemma SortedCons(o: SortOrder, y: TherapistProfile, r: seq<TherapistProfile>)
    requires SortedBy(o, r)
    requires forall t | t in r :: InOrder(o, y, t)
    ensures SortedBy(o, [y] + r)
  {
    var s := [y] + r;
    forall i, j | 0 <= i < j < |s| ensures InOrder(o, s[i], s[j]) {
      assert s[j] == r[j - 1];
      if i > 0 {
        assert s[i] == r[i - 1];
      }
    }
  }

  /** Inserts x before the first entry it may precede. */
  function Insert(o: SortOrder, x: TherapistProfile, s: seq<TherapistProfile>): (r: seq<TherapistProfile>)
    requires SortedBy(o, s)
    ensures SortedBy(o, r)
    ensures forall t | t in r :: t == x || t in s
    ensures multiset(r) == multiset(s) + multiset{x}
  {
    if s == [] then [x]
    else if InOrder(o, x, s[0]) then
      BeforeHeadIsBeforeAll(o, x, s);
      SortedCons(o, x, s);
      [x] + s
    else
      InOrderTotal(o, x, s[0]);
      TailSorted(o, s);
      var rest := Insert(o, x, s[1..]);
      HeadBeforeInserted(o, x, s, rest);
      SortedCons(o, s[0], rest);
      assert s == [s[0]] + s[1..];
      [s[0]] + rest
  }

  /** In a sorted list, what goes before the head goes before every entry. */
  lemma BeforeHeadIsBeforeAll(o: SortOrder, x: TherapistProfile, s: seq<TherapistProfile>)
    requires SortedBy(o, s) && s != [] && InOrder(o, x, s[0])
    ensures forall t | t in s :: InOrder(o, x, t)
  {
    forall t | t in s ensures InOrder(o, x, t) {
      var j :| 0 <= j < |s| && s[j] == t;
      if j > 0 {
        assert InOrder(o, s[0], s[j]);
      }
    }
  }

  lemma TailSorted(o: SortOrder, s: seq<TherapistProfile>)
    requires SortedBy(o, s) && s != []
    ensures SortedBy(o, s[1..])
  {
    forall i, j | 0 <= i < j < |s| - 1 ensures InOrder(o, s[1..][i], s[1..][j]) {
      assert s[1..][i] == s[i + 1] && s[1..][j] == s[j + 1];
    }
  }

  /** The head of a sorted list goes before an entry it precedes and before the rest of the list. */
  lemma HeadBeforeInserted(o: SortOrder, x: TherapistProfile, s: seq<TherapistProfile>, rest: seq<TherapistProfile>)
    requires SortedBy(o, s) && s != [] && InOrder(o, s[0], x)
    requires forall t | t in rest :: t == x || t in s[1..]
    ensures forall t | t in rest :: InOrder(o, s[0], t)
  {
    forall t | t in rest ensures InOrder(o, s[0], t) {
      if t != x {
        var j :| 0 <= j < |s[1..]| && s[1..][j] == t;
        assert s[j + 1] == t;
      }
    }
  }

  /** .sort(sort): the filtered profiles reordered by the chosen key. */
  function SortBy(o: SortOrder, s: seq<TherapistProfile>): (r: seq<TherapistProfile>)
    ensures SortedBy(o, r)
    ensures multiset(r) == multiset(s)
  {
    if s == [] then []
    else
      assert s == [s[0]] + s[1..];
      Insert(o, s[0], SortBy(o, s[1..]))
  }

  /**
   * .sort(sort) over matches held in creation order: newest first is
   * their reverse, and every other key sorts by that key.
   */
  function Arrange(o: SortOrder, s: seq<TherapistProfile>): (r: seq<TherapistProfile>)
    ensures SortedBy(o, r)
    ensures multiset(r) == multiset(s)
    ensures o == NewestFirst ==> |r| == |s| && forall k | 0 <= k < |s| :: r[k] == s[|s| - 1 - k]
  {
    if o == NewestFirst then
      ReversedPermutes(s);
      Reversed(s)
    else SortBy(o, s)
  }

  const MaxListLimit: int := 50

  /** The pagination block of the reply. */
  datatype ListPagination = ListPagination(currentPage: int, totalPages: PageCount, totalTherapists: nat, hasMore: bool)

  datatype ListResult = ListResult(therapists: seq<TherapistProfile>, pagination: ListPagination)

  /** A window of a sorted sequence is sorted. */
  lemma PageIsSorted(o: SortOrder, sorted: seq<TherapistProfile>, skip: nat, limitNum: nat)
    requires SortedBy(o, sorted)
    ensures SortedBy(o, PageOf(sorted, skip, limitNum))
  {
    var r := PageOf(sorted, skip, limitNum);
    forall i, j | 0 <= i < j < |r| ensures InOrder(o, r[i], r[j]) {
      assert r[i] == sorted[skip + i] && r[j] == sorted[skip + j];
    }
  }

  /**
   * The reply of getAllTherapists for page and the requested limit, or
   * None where the database itself would refuse (a negative skip) or the
   * limit is not positive, whose database semantics are not modelled.
   */
  function ListTherapists(q: ListQuery, all: seq<TherapistProfile>, page: int, limit: int): (r: Option<ListResult>)
    ensures r.Some? <==> page >= 1 && limit >= 1
    ensures r.Some? ==>
      var limitNum := CappedLimit(limit, MaxListLimit);
      var matching := Filtered(q, all);
      && |r.value.therapists| <= limitNum <= MaxListLimit
      && (forall t | t in r.value.therapists :: t in all && ListMatches(q, t))
      && SortedBy(SortOrderOf(q.sortBy), r.value.therapists)
      && r.value.pagination.totalTherapists == |matching|
      && r.value.pagination.currentPage == page
      && (r.value.pagination.hasMore <==> page * limitNum < |matching|)
    ensures r.Some? ==>
      var limitNum := CappedLimit(limit, MaxListLimit);
      var sorted := Arrange(SortOrderOf(q.sortBy), Filtered(q, all));
      r.value.therapists == PageOf(sorted, PageStart(page, limitNum), limitNum)
      && r.value.pagination.totalPages == TotalPages(|sorted|, limitNum)
  {
    if page < 1 || limit < 1 then None
    else
      var limitNum := CappedLimit(limit, MaxListLimit);
      var matching := Filtered(q, all);
      var o := SortOrderOf(q.sortBy);
      var sorted := Arrange(o, matching);
      var items := PageOf(sorted, PageStart(page, limitNum), limitNum);
      PageIsSorted(o, sorted, PageStart(page, limitNum), limitNum);
      assert forall t | t in items :: t in multiset(matching);
      HasNextIffMoreEntries(page, |matching|, limitNum);
      Some(ListResult(items, ListPagination(page, TotalPages(|matching|, limitNum), |matching|,
        HasNextPage(page, |matching|, limitNum))))
  }
}
