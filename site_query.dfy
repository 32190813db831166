/**
 * The site query handler (GetSitesHandler.execute): it turns a GetSites
 * command into a conjunction of criteria, an ordering of at most one
 * element and a page offset, then asks the site table for one page of
 * sites and for the total number of matching sites.
 */
module SiteQuery {
  import opened Wrappers
  import JavaInt
  import SiteBinder

  /** The site-table columns the handler filters or sorts on. */
  datatype Column = Id | ActivityId | DatabaseId | Date1 | Date2 | LocationName | PartnerName | LocationAxe

  /** A pivot filter: restricted categories per dimension; the handler does not look inside. */
  datatype PivotFilter = PivotFilter(restrictions: map<int, set<int>>)

  /** One conjunct of the query's criteria. */
  datatype Criterion =
    | Eq(column: Column, value: int)   // narrowing equality on a site-table id column
    | AssessmentOnly                   // activity.assessment = true
    | Parsed(filter: string)           // what the free-text filter parser makes of `filter`
    | Pivot(pivotFilter: PivotFilter)  // what the pivot-filter bridge makes of `pivotFilter`

  datatype SortDir = Asc | Desc | NoSort

  datatype SortInfo = SortInfo(field: string, dir: SortDir)

  /** What the indicator lookup returns for an id; `NoIndicator` stands for null. */
  datatype IndicatorRef = NoIndicator | IndicatorEntity(indicatorId: int)

  datatype Order =
    | AscCol(column: Column)
    | DescCol(column: Column)
    | IndicatorOrder(indicator: IndicatorRef, ascending: bool)
    | AdminOrder(levelId: int, ascending: bool)

  /** The GetSites command: boxed `Integer` fields that may be null are options. */
  datatype GetSites = GetSites(
    siteId: Option<int>,
    activityId: Option<int>,
    databaseId: Option<int>,
    assessmentsOnly: bool,
    filter: Option<string>,
    pivotFilter: Option<PivotFilter>,
    sortInfo: SortInfo,
    offset: int,
    limit: int,
    seekToSiteId: Option<int>)

  datatype User = User(userId: int)

  /**
   * The collaborators sort resolution consults: the indicator property
   * prefix, the parsing of an indicator id and of an admin level id out of
   * a field name, and the indicator lookup by id.
   */
  datatype Lookups = Lookups(
    indicatorPrefix: string,
    indicatorIdForProperty: string -> int,
    levelIdForProperty: string -> int,
    findIndicator: int -> IndicatorRef)

  /** The site table's three queries, left uninterpreted. */
  datatype SiteTable = SiteTable(
    queryPageNumber: (User, seq<Criterion>, seq<Order>, int, int) -> int,
    query: (User, seq<Criterion>, seq<Order>, int, int) -> seq<SiteBinder.SiteDTO>,
    queryCount: seq<Criterion> -> int)

  datatype SiteResult = SiteResult(sites: seq<SiteBinder.SiteDTO>, offset: int, totalLength: int)

  // ---------------------------------------------------------------- criteria

  /**
   * Whether `x` belongs in the criteria of `cmd`, stated conjunct by
   * conjunct: the site id when given, otherwise the activity id when
   * given, otherwise the database id when given; the assessment flag, the
   * text filter and the pivot filter exactly when set.
   */
  predicate Wanted(cmd: GetSites, x: Criterion) {
    match x
    case Eq(col, k) =>
      || (col == Id && cmd.siteId == Some(k))
      || (col == ActivityId && cmd.siteId.None? && cmd.activityId == Some(k))
      || (col == DatabaseId && cmd.siteId.None? && cmd.activityId.None? && cmd.databaseId == Some(k))
    case AssessmentOnly => cmd.assessmentsOnly
    case Parsed(f) => cmd.filter == Some(f)
    case Pivot(p) => cmd.pivotFilter == Some(p)
  }

  /** The conjuncts of the handler's criteria, in the order it adds them. */
  function Criteria(cmd: GetSites): seq<Criterion> {
    Narrowing(cmd) + Extras(cmd)
  }

  /** The one narrowing equality, if any: site id, then activity id, then database id. */
  function Narrowing(cmd: GetSites): seq<Criterion> {
    if cmd.siteId.Some? then [Eq(Id, cmd.siteId.value)]
    else if cmd.activityId.Some? then [Eq(ActivityId, cmd.activityId.value)]
    else if cmd.databaseId.Some? then [Eq(DatabaseId, cmd.databaseId.value)]
    else []
  }

  /** The conjuncts for the assessment flag, the text filter and the pivot filter. */
  function Extras(cmd: GetSites): seq<Criterion> {
    (if cmd.assessmentsOnly then [AssessmentOnly] else [])
      + (if cmd.filter.Some? then [Parsed(cmd.filter.value)] else [])
      + (if cmd.pivotFilter.Some? then [Pivot(cmd.pivotFilter.value)] else [])
  }

  lemma NarrowingWanted(cmd: GetSites)
    ensures var n := Narrowing(cmd);
            && |n| <= 1 && (forall x :: x in n ==> x.Eq?)
            && forall x: Criterion :: x.Eq? ==> (x in n <==> Wanted(cmd, x))
  {
  }

  lemma ExtrasWanted(cmd: GetSites)
    ensures var e := Extras(cmd);
            && (forall x :: x in e ==> !x.Eq?)
            && (forall x: Criterion :: !x.Eq? ==> (x in e <==> Wanted(cmd, x)))
            && forall i, j :: 0 <= i < j < |e| ==> e[i] != e[j]
  {
  }

  /**
   * The criteria of a command are exactly the wanted conjuncts, each
   * once, with at most one narrowing equality among them.
   */
  lemma CriteriaWanted(cmd: GetSites)
    ensures var c := Criteria(cmd);
            && (forall x :: x in c <==> Wanted(cmd, x))
            && (forall i, j :: 0 <= i < j < |c| ==> c[i] != c[j])
            && forall i, j :: 0 <= i < j < |c| ==> !(c[i].Eq? && c[j].Eq?)
  {
    NarrowingWanted(cmd);
    ExtrasWanted(cmd);
    var n, e := Narrowing(cmd), Extras(cmd);
    var c := n + e;
    forall i, j | 0 <= i < j < |c|
      ensures c[i] != c[j] && !(c[i].Eq? && c[j].Eq?)
    {
      if j < |n| {
        assert false;
      } else if i >= |n| {
        assert c[i] == e[i - |n|] && c[j] == e[j - |n|];
      } else {
        assert c[i] in n && c[j] in e;
      }
    }
  }

  /** The conjunction built step by step, as the handler adds to it. */
  method BuildCriteria(cmd: GetSites) returns (criteria: seq<Criterion>)
    ensures criteria == Criteria(cmd)
  {
    criteria := [];
    if cmd.siteId.Some? {
      criteria := criteria + [Eq(Id, cmd.siteId.value)];
    } else if cmd.activityId.Some? {
      criteria := criteria + [Eq(ActivityId, cmd.activityId.value)];
    } else if cmd.databaseId.Some? {
      criteria := criteria + [Eq(DatabaseId, cmd.databaseId.value)];
    }
    ghost var narrowing, added := criteria, [];
    assert narrowing == Narrowing(cmd);
    if cmd.assessmentsOnly {
      criteria, added := criteria + [AssessmentOnly], added + [AssessmentOnly];
    }
    assert criteria == narrowing + added;
    if cmd.filter.Some? {
      criteria, added := criteria + [Parsed(cmd.filter.value)], added + [Parsed(cmd.filter.value)];
    }
    assert criteria == narrowing + added;
    if cmd.pivotFilter.Some? {
      criteria, added := criteria + [Pivot(cmd.pivotFilter.value)], added + [Pivot(cmd.pivotFilter.value)];
    }
    assert added == Extras(cmd);
    assert criteria == narrowing + added;
  }

  /** A given site id makes the activity and database ids irrelevant. */
  lemma SiteIdOverridesNarrowing(cmd: GetSites, activityId: Option<int>, databaseId: Option<int>)
    requires cmd.siteId.Some?
    ensures Criteria(cmd.(activityId := activityId, databaseId := databaseId)) == Criteria(cmd)
  {
  }

  /** Without a site id, a given activity id makes the database id irrelevant. */
  lemma ActivityIdOverridesDatabaseId(cmd: GetSites, databaseId: Option<int>)
    requires cmd.siteId.None? && cmd.activityId.Some?
    ensures Criteria(cmd.(databaseId := databaseId)) == Criteria(cmd)
  {
  }

  /** The criteria, and so the total count, do not depend on sorting or paging. */
  lemma CriteriaIgnorePaging(cmd: GetSites, sortInfo: SortInfo, offset: int, limit: int, seek: Option<int>)
    ensures Criteria(cmd.(sortInfo := sortInfo, offset := offset, limit := limit, seekToSiteId := seek))
         == Criteria(cmd)
  {
  }

  // ---------------------------------------------------------------- ordering

  /** The sort-field names that map directly to a column. */
  function FixedColumn(field: string): Option<Column> {
    if field == "date1" then Some(Date1)
    else if field == "date2" then Some(Date2)
    else if field == "locationName" then Some(LocationName)
    else if field == "partner" then Some(PartnerName)
    else if field == "locationAxe" then Some(LocationAxe)
    else None
  }

  /** The grid's sort-field name of each directly sortable column. */
  function SortFieldName(col: Column): Option<string> {
    match col
    case Date1 => Some("date1")
    case Date2 => Some("date2")
    case LocationName => Some("locationName")
    case PartnerName => Some("partner")
    case LocationAxe => Some("locationAxe")
    case _ => None
  }

  /** The fixed names and the columns they sort on are in one-to-one correspondence. */
  lemma FixedColumnRoundTrip(field: string, col: Column)
    ensures FixedColumn(field) == Some(col) <==> SortFieldName(col) == Some(field)
  {
  }

  /** The ordering on one column: ascending exactly when the direction is ASC. */
  function OrderBy(column: Column, dir: SortDir): (o: Order)
    ensures o.AscCol? || o.DescCol?
    ensures o.column == column
    ensures o.AscCol? <==> dir == Asc
  {
    if dir == Asc then AscCol(column) else DescCol(column)
  }

  predicate Ascending(o: Order) {
    match o
    case AscCol(_) => true
    case DescCol(_) => false
    case IndicatorOrder(_, ascending) => ascending
    case AdminOrder(_, ascending) => ascending
  }

  /** A field name that yields an ordering: a fixed name, an indicator field or an admin-level field. */
  predicate Recognised(field: string, lookups: Lookups) {
    FixedColumn(field).Some? || lookups.indicatorPrefix <= field || "a" <= field
  }

  /**
   * The ordering of a command. It is empty when the direction is NONE or
   * the field is not recognised, and otherwise holds exactly one order,
   * ascending exactly when the direction is ASC. A fixed name wins over
   * both prefixes, and the indicator prefix wins over the "a" prefix.
   */
  function SortOrder(sort: SortInfo, lookups: Lookups): (r: seq<Order>)
    ensures |r| <= 1
    ensures r == [] <==> sort.dir == NoSort || !Recognised(sort.field, lookups)
    ensures forall o :: o in r ==> (Ascending(o) <==> sort.dir == Asc)
    ensures sort.dir != NoSort && FixedColumn(sort.field).Some? ==>
              r == [OrderBy(FixedColumn(sort.field).value, sort.dir)]
    ensures sort.dir != NoSort && FixedColumn(sort.field).None? && lookups.indicatorPrefix <= sort.field ==>
              r == [IndicatorOrder(lookups.findIndicator(lookups.indicatorIdForProperty(sort.field)), sort.dir == Asc)]
    ensures sort.dir != NoSort && FixedColumn(sort.field).None? && !(lookups.indicatorPrefix <= sort.field)
              && "a" <= sort.field ==>
              r == [AdminOrder(lookups.levelIdForProperty(sort.field), sort.dir == Asc)]
  {
    if sort.dir == NoSort then []
    else if FixedColumn(sort.field).Some? then [OrderBy(FixedColumn(sort.field).value, sort.dir)]
    else if lookups.indicatorPrefix <= sort.field then
      [IndicatorOrder(lookups.findIndicator(lookups.indicatorIdForProperty(sort.field)), sort.dir == Asc)]
    else if "a" <= sort.field then
      [AdminOrder(lookups.levelIdForProperty(sort.field), sort.dir == Asc)]
    else []
  }

  /** The order list built as the handler builds it: one `add` in at most one branch. */
  method BuildOrder(sort: SortInfo, lookups: Lookups) returns (order: seq<Order>)
    ensures order == SortOrder(sort, lookups)
  {
    order := [];
    if sort.dir != NoSort {
      var field := sort.field;
      if field == "date1" {
        order := order + [OrderBy(Date1, sort.dir)];
      } else if field == "date2" {
        order := order + [OrderBy(Date2, sort.dir)];
      } else if field == "locationName" {
        order := order + [OrderBy(LocationName, sort.dir)];
      } else if field == "partner" {
        order := order + [OrderBy(PartnerName, sort.dir)];
      } else if field == "locationAxe" {
        order := order + [OrderBy(LocationAxe, sort.dir)];
      } else if lookups.indicatorPrefix <= field {
        var indicator := lookups.findIndicator(lookups.indicatorIdForProperty(field));
        order := order + [IndicatorOrder(indicator, sort.dir == Asc)];
      } else if "a" <= field {
        var levelId := lookups.levelIdForProperty(field);
        order := order + [AdminOrder(levelId, sort.dir == Asc)];
      }
    }
  }

  /** A fixed sort-field name never consults the lookups. */
  lemma FixedNameIgnoresLookups(sort: SortInfo, lookups1: Lookups, lookups2: Lookups)
    requires FixedColumn(sort.field).Some?
    ensures SortOrder(sort, lookups1) == SortOrder(sort, lookups2)
  {
  }

  // ---------------------------------------------------------------- paging

  /** The command asks for the page holding a given site. */
  predicate Seeks(cmd: GetSites) {
    cmd.seekToSiteId.Some? && cmd.limit > 0
  }

  /**
   * The offset of page `pageNum` for pages of `limit` rows, computed in
   * Java `int` arithmetic: it is the exact product up to 32-bit
   * wrap-around, and when that product fits in an `int` and the page
   * number is not negative it is a multiple of `limit` whose quotient is
   * the page number.
   */
  function PageStart(pageNum: int, limit: int): (offset: int)
    requires limit > 0
    ensures JavaInt.IsInt(offset)
    ensures (pageNum * limit - offset) % JavaInt.Modulus == 0
    ensures 0 <= pageNum && pageNum * limit <= JavaInt.MaxInt ==>
              0 <= offset && offset % limit == 0 && offset / limit == pageNum
  {
    var product := pageNum * limit;
    if 0 <= pageNum && product <= JavaInt.MaxInt then
      PageStartExact(pageNum, limit);
      product
    else
      JavaInt.Wrap(product)
  }

  lemma PageStartExact(pageNum: nat, limit: int)
    requires limit > 0
    ensures 0 <= pageNum * limit
    ensures (pageNum * limit) % limit == 0 && (pageNum * limit) / limit == pageNum
  {
    var x := pageNum * limit;
    var q, r := x / limit, x % limit;
    assert x == q * limit + r && 0 <= r < limit;
    assert (pageNum - q) * limit == r;
    if pageNum - q >= 1 {
      AtLeastOnce(pageNum - q, limit);
      assert false;
    } else if pageNum - q <= -1 {
      assert false;
    }
  }

  /** `n` copies of a positive `d` add up to at least `d`. */
  lemma {:induction false} AtLeastOnce(n: int, d: int)
    requires n >= 1 && d > 0
    ensures n * d >= d
  {
    if n > 1 {
      AtLeastOnce(n - 1, d);
      assert n * d == (n - 1) * d + d;
    }
  }

  // ---------------------------------------------------------------- execute

  /**
   * Runs the command. The page-number query, the page query and the count
   * all receive the same criteria; the result carries the computed offset
   * and whatever the count query answers for those criteria.
   */
  method Execute(cmd: GetSites, user: User, table: SiteTable, lookups: Lookups) returns (result: SiteResult)
    ensures !Seeks(cmd) ==> result.offset == cmd.offset
    ensures Seeks(cmd) ==>
              result.offset == PageStart(
                table.queryPageNumber(user, Criteria(cmd), SortOrder(cmd.sortInfo, lookups),
                                      cmd.limit, cmd.seekToSiteId.value),
                cmd.limit)
    ensures result.sites == table.query(user, Criteria(cmd), SortOrder(cmd.sortInfo, lookups),
                                        result.offset, cmd.limit)
    ensures result.totalLength == table.queryCount(Criteria(cmd))
  {
    var criteria := BuildCriteria(cmd);
    var order := BuildOrder(cmd.sortInfo, lookups);

    var offset: int;
    if cmd.seekToSiteId.Some? && cmd.limit > 0 {
      var pageNum := table.queryPageNumber(user, criteria, order, cmd.limit, cmd.seekToSiteId.value);
      offset := PageStart(pageNum, cmd.limit);
    } else {
      offset := cmd.offset;
    }

    var sites := table.query(user, criteria, order, offset, cmd.limit);
    result := SiteResult(sites, offset, table.queryCount(criteria));
  }

  /**
   * A command for activity 7 sorted by date1 descending, first page of 20:
   * one narrowing conjunct, one descending order on date1, offset 0.
   */
  lemma ActivitySortedByDate1(lookups: Lookups)
    ensures var cmd := GetSites(None, Some(7), None, false, None, None, SortInfo("date1", Desc), 0, 20, None);
            && Criteria(cmd) == [Eq(ActivityId, 7)]
            && SortOrder(cmd.sortInfo, lookups) == [DescCol(Date1)]
            && !Seeks(cmd)
  {
  }
}
