/**
 * The customer table widget: page count, clamping of the requested page, the
 * rows of the current page, the previous/next requests, the footer and the
 * empty states.
 */
module UserTableWidget {
  import opened Wrappers
  import WidgetConstants

  datatype UserType = Vip | Premium | Basico

  datatype User = User(id: int, name: string, email: string, userType: Option<UserType>)

  const PageSize: int := WidgetConstants.ItemsPerPage

  function Min(a: int, b: int): int {
    if a <= b then a else b
  }

  function TypeLabel(t: UserType): string {
    match t
    case Vip => "VIP"
    case Premium => "Premium"
    case Basico => "Básico"
  }

  /** `getUserTypeStyles(type)`. */
  function TypeStyles(t: UserType): string {
    match t
    case Vip => "bg-purple-100 text-purple-800"
    case Premium => "bg-yellow-100 text-yellow-800"
    case Basico => "bg-blue-100 text-blue-800"
  }

  /** `Math.max(1, Math.ceil(n / 5))`: the fewest pages of five that hold n rows, and at least one. */
  function TotalPages(n: nat): (r: int)
    ensures r >= 1
    ensures n <= r * PageSize
    ensures r > 1 ==> (r - 1) * PageSize < n
  {
    var ceiling := (n + PageSize - 1) / PageSize;
    if ceiling < 1 then 1 else ceiling
  }

  /** `Math.max(1, Math.min(currentPage, totalPages))`. */
  function ValidPage(current: int, total: int): (r: int)
    requires total >= 1
    ensures 1 <= r <= total
    ensures 1 <= current <= total ==> r == current
    ensures current < 1 ==> r == 1
    ensures current > total ==> r == total
  {
    var m := if current <= total then current else total;
    if m < 1 then 1 else m
  }

  /** `(validCurrentPage - 1) * itemsPerPage`. */
  function StartIndex(valid: int): int {
    (valid - 1) * PageSize
  }

  /** `Array.prototype.slice(start, end)` for non-negative bounds: both are cut down to the length. */
  function Slice<T>(s: seq<T>, start: nat, end: nat): seq<T> {
    var a := Min(start, |s|);
    var b := Min(end, |s|);
    if a <= b then s[a..b] else []
  }

  /**
   * `currentUsers`: at most five consecutive users, in input order, starting
   * at the clamped page's first index, which lies inside the list when the
   * list is non-empty.
   */
  function PageRows(users: seq<User>, current: int): (rows: seq<User>)
    ensures var start := StartIndex(ValidPage(current, TotalPages(|users|)));
            0 <= start && (|users| > 0 ==> start < |users|)
            && rows == users[start..Min(start + PageSize, |users|)]
    ensures |rows| <= PageSize
    ensures |users| > 0 ==> |rows| > 0
  {
    var start := StartIndex(ValidPage(current, TotalPages(|users|)));
    Slice(users, start, start + PageSize)
  }

  /** The users on pages 1 to p, one page after the other. */
  function FirstPages(users: seq<User>, p: nat): seq<User> {
    if p == 0 then [] else FirstPages(users, p - 1) + PageRows(users, p)
  }

  lemma {:induction false} FirstPagesPrefix(users: seq<User>, p: nat)
    requires p <= TotalPages(|users|)
    ensures FirstPages(users, p) == users[..Min(p * PageSize, |users|)]
  {
    if p > 0 {
      FirstPagesPrefix(users, p - 1);
      var n := |users|;
      if n > 0 {
        assert users[..Min(p * PageSize, n)]
            == users[..Min((p - 1) * PageSize, n)] + users[(p - 1) * PageSize..Min(p * PageSize, n)];
      }
    }
  }

  /** Paging loses and repeats nothing: all pages in order give back the whole list. */
  lemma PagesCoverUsers(users: seq<User>)
    ensures FirstPages(users, TotalPages(|users|)) == users
  {
    var total := TotalPages(|users|);
    FirstPagesPrefix(users, total);
    assert |users| <= total * PageSize;
    assert Min(total * PageSize, |users|) == |users|;
    assert users[..|users|] == users;
  }

  /** `handlePrevPage`: asks for the page before, unless already on the first. */
  function PrevPageRequest(valid: int, total: int): (r: Option<int>)
    requires 1 <= valid <= total
    ensures r.Some? <==> valid != 1
    ensures r.Some? ==> 1 <= r.value <= total && r.value == valid - 1
  {
    if valid > 1 then Some(valid - 1) else None
  }

  /** `handleNextPage`: asks for the page after, unless already on the last. */
  function NextPageRequest(valid: int, total: int): (r: Option<int>)
    requires 1 <= valid <= total
    ensures r.Some? <==> valid != total
    ensures r.Some? ==> 1 <= r.value <= total && r.value == valid + 1
  {
    if valid < total then Some(valid + 1) else None
  }

  /** The footer: "Mostrando first-last de total", the page counter and the two disabled flags. */
  datatype Footer = Footer(first: int, last: int, total: int, page: int, pages: int,
                           prevDisabled: bool, nextDisabled: bool)

  /** The footer, shown only when there is more than one page. */
  function FooterOf(users: seq<User>, current: int): (f: Option<Footer>)
    ensures f.Some? <==> |users| > PageSize
    ensures f.Some? ==> 1 <= f.value.first <= f.value.last <= f.value.total == |users|
    ensures f.Some? ==> f.value.last - f.value.first + 1 == |PageRows(users, current)|
    ensures f.Some? ==> users[f.value.first - 1..f.value.last] == PageRows(users, current)
    ensures f.Some? ==> f.value.pages == TotalPages(|users|)
                        && f.value.page == ValidPage(current, f.value.pages)
    ensures f.Some? ==> (f.value.prevDisabled <==> PrevPageRequest(f.value.page, f.value.pages).None?)
                        && (f.value.nextDisabled <==> NextPageRequest(f.value.page, f.value.pages).None?)
  {
    var n := |users|;
    var pages := TotalPages(n);
    var valid := ValidPage(current, pages);
    var start := StartIndex(valid);
    if pages > 1 then
      Some(Footer(start + 1, Min(start + PageSize, n), n, valid, pages, valid == 1, valid == pages))
    else None
  }

  /** One table row, with "N/A" for an empty name or e-mail and "Básico" for a missing type. */
  datatype RowView = RowView(name: string, email: string, typeLabel: string, typeStyle: string)

  function RowOf(u: User): RowView {
    var t := u.userType.GetOr(Basico);
    RowView(if u.name == "" then "N/A" else u.name, if u.email == "" then "N/A" else u.email,
            TypeLabel(t), TypeStyles(t))
  }

  datatype TableView = NoData | NoUsers | Table(rows: seq<RowView>, footer: Option<Footer>)

  /**
   * The widget: `None` is missing data or a `users` that is not an array.
   * Otherwise an empty list gives its own message and a non-empty one the
   * rows of the clamped page.
   */
  function View(users: Option<seq<User>>, current: int): (v: TableView)
    ensures v.NoData? <==> users.None?
    ensures v.NoUsers? <==> users == Some([])
    ensures v.Table? ==> |v.rows| == |PageRows(users.value, current)| > 0
    ensures v.Table? ==> forall k :: 0 <= k < |v.rows| ==> v.rows[k] == RowOf(PageRows(users.value, current)[k])
    ensures v.Table? ==> v.footer == FooterOf(users.value, current)
  {
    if users.None? then NoData
    else if |users.value| == 0 then NoUsers
    else
      var rows := PageRows(users.value, current);
      Table(seq(|rows|, k requires 0 <= k < |rows| => RowOf(rows[k])), FooterOf(users.value, current))
  }

  /** The three plans get three different badge styles. */
  lemma TypeStylesDistinct(a: UserType, b: UserType)
    requires a != b
    ensures TypeStyles(a) != TypeStyles(b)
  {
  }

  /** A user without a type is shown as "Básico". */
  lemma MissingTypeIsBasico(u: User)
    requires u.userType.None?
    ensures RowOf(u).typeLabel == "Básico"
  {
  }
}
