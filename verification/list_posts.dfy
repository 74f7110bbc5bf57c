/** The query string of the `list_posts` tool: eight optional filters, each
    written as `name=value` when truthy, in a fixed order. */
module ListPostsQuery {
  import opened Options
  import Decimal
  import Json

  /** The handler's validated input; numbers are integral. */
  datatype Filter = Filter(
    status: Option<string>,
    platform: Option<string>,
    fromDate: Option<string>,
    toDate: Option<string>,
    page: Option<int>,
    limit: Option<int>,
    sortBy: Option<string>,
    sortOrder: Option<string>)

  /** The query parameter names the handler may set. */
  datatype Name = Status | Platform | FromDate | ToDate | Page | Limit | SortBy | SortOrder

  function Text(n: Name): string {
    match n
    case Status => "status"
    case Platform => "platform"
    case FromDate => "fromDate"
    case ToDate => "toDate"
    case Page => "page"
    case Limit => "limit"
    case SortBy => "sortBy"
    case SortOrder => "sortOrder"
  }

  /** One pair of a URLSearchParams object. */
  type Param = (Name, string)

  const BasePath: string := "/list-posts"

  /** How many parameter names there are. */
  const Count: nat := 8

  /** The names in the order the handler sets them: status, platform,
      fromDate, toDate, page, limit, sortBy, sortOrder. */
  function NameAt(k: nat): (n: Name)
    requires k < Count
    ensures Rank(n) == k
  {
    match k
    case 0 => Status
    case 1 => Platform
    case 2 => FromDate
    case 3 => ToDate
    case 4 => Page
    case 5 => Limit
    case 6 => SortBy
    case _ => SortOrder
  }

  /** `if (v) params.set(name, v)` for a text filter. */
  function TextParam(name: Name, v: Option<string>): (ps: seq<Param>)
    ensures |ps| <= 1
    ensures ps != [] <==> v.Some? && Json.Truthy(Json.JStr(v.value))
    ensures ps != [] ==> ps[0] == (name, v.value)
    ensures ValuesSet(ps)
  {
    if Filled(v) then [(name, v.value)] else []
  }

  /** `if (n) params.set(name, String(n))`: zero is falsy and is left out. */
  function NumberParam(name: Name, v: Option<int>): (ps: seq<Param>)
    ensures |ps| <= 1
    ensures ps != [] <==> v.Some? && Json.Truthy(Json.JNum(v.value))
    ensures ps != [] ==> ps[0].0 == name && Decimal.ParseInt(ps[0].1) == Some(v.value)
    ensures ValuesSet(ps)
  {
    if v.Some? && v.value != 0 then
      Decimal.IntToStringRoundTrip(v.value);
      [(name, Decimal.IntToString(v.value))]
    else []
  }

  /** The parameters in the order the handler's eight `if` statements set them. */
  function Params(f: Filter): (ps: seq<Param>)
    ensures |ps| <= Count
    ensures ValuesSet(ps)
  {
    var p1 := TextParam(Status, f.status);
    var p2 := p1 + TextParam(Platform, f.platform);
    ValuesSetAppend(p1, TextParam(Platform, f.platform));
    var p3 := p2 + TextParam(FromDate, f.fromDate);
    ValuesSetAppend(p2, TextParam(FromDate, f.fromDate));
    var p4 := p3 + TextParam(ToDate, f.toDate);
    ValuesSetAppend(p3, TextParam(ToDate, f.toDate));
    var p5 := p4 + NumberParam(Page, f.page);
    ValuesSetAppend(p4, NumberParam(Page, f.page));
    var p6 := p5 + NumberParam(Limit, f.limit);
    ValuesSetAppend(p5, NumberParam(Limit, f.limit));
    var p7 := p6 + TextParam(SortBy, f.sortBy);
    ValuesSetAppend(p6, TextParam(SortBy, f.sortBy));
    ValuesSetAppend(p7, TextParam(SortOrder, f.sortOrder));
    p7 + TextParam(SortOrder, f.sortOrder)
  }

  /** No parameter is set to the empty string. */
  predicate ValuesSet(ps: seq<Param>) {
    forall i :: 0 <= i < |ps| ==> ps[i].1 != ""
  }

  lemma ValuesSetAppend(a: seq<Param>, b: seq<Param>)
    requires ValuesSet(a) && ValuesSet(b)
    ensures ValuesSet(a + b)
  {
    forall i | 0 <= i < |a + b|
      ensures (a + b)[i].1 != ""
    {
      if i < |a| { assert (a + b)[i] == a[i]; } else { assert (a + b)[i] == b[i - |a|]; }
    }
  }

  /** Reference: the text a filter supplies for a parameter, when its value
      is truthy. */
  function Wanted(f: Filter, n: Name): Option<string> {
    match n
    case Status => if Filled(f.status) then f.status else None
    case Platform => if Filled(f.platform) then f.platform else None
    case FromDate => if Filled(f.fromDate) then f.fromDate else None
    case ToDate => if Filled(f.toDate) then f.toDate else None
    case Page => if f.page.Some? && f.page.value != 0 then Some(Decimal.IntToString(f.page.value)) else None
    case Limit => if f.limit.Some? && f.limit.value != 0 then Some(Decimal.IntToString(f.limit.value)) else None
    case SortBy => if Filled(f.sortBy) then f.sortBy else None
    case SortOrder => if Filled(f.sortOrder) then f.sortOrder else None
  }

  /** The position of a parameter name in the handler's order. */
  function Rank(n: Name): (r: nat)
    ensures r < Count
  {
    match n
    case Status => 0
    case Platform => 1
    case FromDate => 2
    case ToDate => 3
    case Page => 4
    case Limit => 5
    case SortBy => 6
    case SortOrder => 7
  }

  /** Reference: the pair for the `k`-th name, when it is wanted. */
  function Keep(f: Filter, k: nat): (ps: seq<Param>)
    requires k < Count
    ensures |ps| <= 1
    ensures ps != [] <==> Wanted(f, NameAt(k)).Some?
    ensures ps != [] ==> ps[0] == (NameAt(k), Wanted(f, NameAt(k)).value)
  {
    match Wanted(f, NameAt(k))
    case Some(v) => [(NameAt(k), v)]
    case None => []
  }

  /** Reference: the wanted pairs among the first `k` names, in order. */
  function SelectUpTo(f: Filter, k: nat): seq<Param>
    requires k <= Count
  {
    if k == 0 then [] else SelectUpTo(f, k - 1) + Keep(f, k - 1)
  }

  /** The first value set for a name, as `URLSearchParams.get` reads it. */
  function ParamValue(ps: seq<Param>, n: Name): (r: Option<string>)
    ensures r.Some? ==> (n, r.value) in ps
    ensures r.None? ==> forall i :: 0 <= i < |ps| ==> ps[i].0 != n
    decreases |ps|
  {
    if |ps| == 0 then None
    else if ps[0].0 == n then Some(ps[0].1)
    else ParamValue(ps[1..], n)
  }

  lemma {:induction false} ParamValueAppend(a: seq<Param>, b: seq<Param>, n: Name)
    ensures ParamValue(a + b, n) == if ParamValue(a, n).Some? then ParamValue(a, n) else ParamValue(b, n)
    decreases |a|
  {
    if |a| == 0 {
      assert a + b == b;
    } else {
      assert (a + b)[1..] == a[1..] + b;
      ParamValueAppend(a[1..], b, n);
    }
  }

  /** The walk over the first `k` names keeps only names of rank below `k`,
      in strictly increasing rank. */
  lemma {:induction false} SelectUpToOrdered(f: Filter, k: nat)
    requires k <= Count
    ensures forall i :: 0 <= i < |SelectUpTo(f, k)| ==> Rank(SelectUpTo(f, k)[i].0) < k
    ensures forall i, j :: 0 <= i < j < |SelectUpTo(f, k)| ==> Rank(SelectUpTo(f, k)[i].0) < Rank(SelectUpTo(f, k)[j].0)
  {
    if k > 0 {
      SelectUpToOrdered(f, k - 1);
      var init := SelectUpTo(f, k - 1);
      var ps := SelectUpTo(f, k);
      var last := Keep(f, k - 1);
      assert ps == init + last;
      assert last != [] ==> Rank(last[0].0) == k - 1 by {
        if last != [] { assert last[0].0 == NameAt(k - 1); }
      }
      forall i | 0 <= i < |ps|
        ensures Rank(ps[i].0) < k
      {
        if i >= |init| {
          assert i == |init| && ps[i] == last[0];
        } else {
          assert ps[i] == init[i];
        }
      }
      forall i, j | 0 <= i < j < |ps|
        ensures Rank(ps[i].0) < Rank(ps[j].0)
      {
        assert ps[i] == init[i];
        if j >= |init| { assert j == |init| && ps[j] == last[0]; }
        else { assert ps[j] == init[j]; }
      }
    }
  }

  /** The walk over the first `k` names carries, for each of them, exactly
      its wanted value, and nothing for the others. */
  lemma {:induction false} SelectUpToValues(f: Filter, k: nat, n: Name)
    requires k <= Count
    ensures ParamValue(SelectUpTo(f, k), n) == if Rank(n) < k then Wanted(f, n) else None
  {
    if k > 0 {
      SelectUpToValues(f, k - 1, n);
      ParamValueAppend(SelectUpTo(f, k - 1), Keep(f, k - 1), n);
      if Rank(n) == k - 1 {
        NameAtRank(n);
      }
    }
  }

  lemma NameAtRank(n: Name)
    ensures NameAt(Rank(n)) == n
  {
  }

  /** Each step of the walk is the handler's corresponding `if`. */
  lemma KeepIsHandlerStep(f: Filter)
    ensures Keep(f, 0) == TextParam(Status, f.status)
    ensures Keep(f, 1) == TextParam(Platform, f.platform)
    ensures Keep(f, 2) == TextParam(FromDate, f.fromDate)
    ensures Keep(f, 3) == TextParam(ToDate, f.toDate)
    ensures Keep(f, 4) == NumberParam(Page, f.page)
    ensures Keep(f, 5) == NumberParam(Limit, f.limit)
    ensures Keep(f, 6) == TextParam(SortBy, f.sortBy)
    ensures Keep(f, 7) == TextParam(SortOrder, f.sortOrder)
  {
  }

  /** The handler's parameter list is the walk over all names in the fixed order. */
  lemma ParamsFollowOrder(f: Filter)
    ensures Params(f) == SelectUpTo(f, Count)
  {
    KeepIsHandlerStep(f);
    assert SelectUpTo(f, 1) == [] + Keep(f, 0);
    assert [] + Keep(f, 0) == Keep(f, 0);
    assert SelectUpTo(f, 2) == SelectUpTo(f, 1) + Keep(f, 1);
    assert SelectUpTo(f, 3) == SelectUpTo(f, 2) + Keep(f, 2);
    assert SelectUpTo(f, 4) == SelectUpTo(f, 3) + Keep(f, 3);
    assert SelectUpTo(f, 5) == SelectUpTo(f, 4) + Keep(f, 4);
    assert SelectUpTo(f, 6) == SelectUpTo(f, 5) + Keep(f, 5);
    assert SelectUpTo(f, 7) == SelectUpTo(f, 6) + Keep(f, 6);
    assert SelectUpTo(f, 8) == SelectUpTo(f, 7) + Keep(f, 7);
  }

  /** The parameters appear in the fixed order status, platform, fromDate,
      toDate, page, limit, sortBy, sortOrder, and each one appears exactly
      when its value is truthy, carrying that value. */
  lemma ParamsOrderedAndTruthy(f: Filter)
    ensures forall i, j :: 0 <= i < j < |Params(f)| ==> Rank(Params(f)[i].0) < Rank(Params(f)[j].0)
    ensures forall n: Name :: ParamValue(Params(f), n) == Wanted(f, n)
  {
    ParamsFollowOrder(f);
    SelectUpToOrdered(f, Count);
    forall n: Name
      ensures ParamValue(Params(f), n) == Wanted(f, n)
    {
      SelectUpToValues(f, Count, n);
    }
  }

  /** Page 0 and limit 0 are falsy and never reach the query. */
  lemma ZeroPageAndLimitOmitted(f: Filter)
    requires f.page == Some(0) || f.limit == Some(0)
    ensures f.page == Some(0) ==> ParamValue(Params(f), Page) == None
    ensures f.limit == Some(0) ==> ParamValue(Params(f), Limit) == None
  {
    ParamsOrderedAndTruthy(f);
  }

  /** `URLSearchParams.toString`: `name=value` pairs joined by "&".
      Percent-encoding is not modelled; values are written as they are. */
  function Encode(ps: seq<Param>): (qs: string)
    ensures qs == "" <==> ps == []
  {
    var parts := seq(|ps|, i requires 0 <= i < |ps| => Text(ps[i].0) + "=" + ps[i].1);
    JoinEmpty(parts, "&");
    Json.Join(parts, "&")
  }

  lemma JoinEmpty(parts: seq<string>, sep: string)
    requires forall i :: 0 <= i < |parts| ==> |parts[i]| > 0
    ensures Json.Join(parts, sep) == "" <==> parts == []
  {
  }

  /** The path of the upstream call: "?" and the query only when the query
      is not empty. */
  function Path(f: Filter): (p: string)
    ensures |p| >= |BasePath| && p[..|BasePath|] == BasePath
    ensures p == BasePath <==> Params(f) == []
    ensures Params(f) != [] ==> p == BasePath + "?" + Encode(Params(f))
  {
    var qs := Encode(Params(f));
    BasePath + (if qs != "" then "?" + qs else "")
  }

  /** The path is bare exactly when no filter is truthy. */
  lemma BarePathIffNoFilter(f: Filter)
    ensures Path(f) == BasePath <==> forall n: Name :: Wanted(f, n).None?
  {
    ParamsOrderedAndTruthy(f);
    if Params(f) != [] {
      var n := Params(f)[0].0;
      assert ParamValue(Params(f), n).Some?;
    }
  }
}
