/**
 * The customer locations widget: the total of users, the locations sorted by
 * users (most first, ties in input order), the colour cycle, the flag lookup
 * and the "countries / top country" summary. Percentages are carried along
 * as given; their bars are not modelled.
 */
module UserLocationsWidget {

  datatype Location = Location(country: string, users: int, percentage: real)

  /** `locations.reduce((sum, l) => sum + l.users, 0)`, a left fold. */
  function SumFrom(acc: int, ls: seq<Location>): int
    decreases |ls|
  {
    if ls == [] then acc else SumFrom(acc + ls[0].users, ls[1..])
  }

  function TotalUsers(ls: seq<Location>): int {
    SumFrom(0, ls)
  }

  /** The plain sum of users, written from the right. */
  function Sum(ls: seq<Location>): int {
    if ls == [] then 0 else ls[0].users + Sum(ls[1..])
  }

  lemma {:induction false} SumFromIsSum(acc: int, ls: seq<Location>)
    ensures SumFrom(acc, ls) == acc + Sum(ls)
    decreases |ls|
  {
    if ls != [] {
      SumFromIsSum(acc + ls[0].users, ls[1..]);
    }
  }

  /** `totalUsers` is the sum of the users of all locations. */
  lemma TotalUsersIsSum(ls: seq<Location>)
    ensures TotalUsers(ls) == Sum(ls)
  {
    SumFromIsSum(0, ls);
  }

  lemma {:induction false} SumAppend(a: seq<Location>, b: seq<Location>)
    ensures Sum(a + b) == Sum(a) + Sum(b)
  {
    if a == [] {
      assert a + b == b;
    } else {
      assert (a + b)[0] == a[0];
      assert (a + b)[1..] == a[1..] + b;
      SumAppend(a[1..], b);
    }
  }

  // ---------------------------------------------------------------- sorting

  /** Non-increasing in users: what the comparator `b.users - a.users` asks for. */
  predicate SortedByUsers(ls: seq<Location>) {
    forall i, j :: 0 <= i < j < |ls| ==> ls[i].users >= ls[j].users
  }

  /** The locations with exactly `users` users, in their order. */
  function WithUsers(ls: seq<Location>, users: int): seq<Location> {
    if ls == [] then []
    else (if ls[0].users == users then [ls[0]] else []) + WithUsers(ls[1..], users)
  }

  /** Places `l` before the first location that does not have more users than it. */
  function Insert(l: Location, sorted: seq<Location>): (r: seq<Location>)
    ensures multiset(r) == multiset(sorted) + multiset{l}
  {
    if sorted == [] || l.users >= sorted[0].users then [l] + sorted
    else
      assert sorted == [sorted[0]] + sorted[1..];
      [sorted[0]] + Insert(l, sorted[1..])
  }

  lemma {:induction false} InsertSorted(l: Location, sorted: seq<Location>)
    requires SortedByUsers(sorted)
    ensures SortedByUsers(Insert(l, sorted))
  {
    if !(sorted == [] || l.users >= sorted[0].users) {
      var rest := Insert(l, sorted[1..]);
      InsertSorted(l, sorted[1..]);
      forall k | 0 <= k < |rest| ensures sorted[0].users >= rest[k].users {
        assert rest[k] in multiset(rest);
        if rest[k] != l {
          assert rest[k] in multiset(sorted[1..]);
          var m :| 0 <= m < |sorted[1..]| && sorted[1..][m] == rest[k];
          assert sorted[m + 1] == rest[k];
        }
      }
    }
  }

  /**
   * `[...locations].sort((a, b) => b.users - a.users)` on a copy. ECMA-262
   * requires `Array.prototype.sort` to be stable, so the result is the one
   * this insertion sort builds.
   */
  function SortByUsers(ls: seq<Location>): (r: seq<Location>)
    ensures multiset(r) == multiset(ls)
    ensures |r| == |ls|
    ensures SortedByUsers(r)
  {
    if ls == [] then []
    else
      assert ls == [ls[0]] + ls[1..];
      var rest := SortByUsers(ls[1..]);
      InsertSorted(ls[0], rest);
      Insert(ls[0], rest)
  }

  lemma {:induction false} WithUsersAppend(a: seq<Location>, b: seq<Location>, users: int)
    ensures WithUsers(a + b, users) == WithUsers(a, users) + WithUsers(b, users)
  {
    if a == [] {
      assert a + b == b;
    } else {
      var head := if a[0].users == users then [a[0]] else [];
      assert (a + b)[0] == a[0];
      assert (a + b)[1..] == a[1..] + b;
      WithUsersAppend(a[1..], b, users);
      calc {
        WithUsers(a + b, users);
        head + WithUsers(a[1..] + b, users);
        head + (WithUsers(a[1..], users) + WithUsers(b, users));
        (head + WithUsers(a[1..], users)) + WithUsers(b, users);
      }
    }
  }

  lemma WithUsersCons(x: Location, rest: seq<Location>, users: int)
    ensures WithUsers([x] + rest, users) == (if x.users == users then [x] else []) + WithUsers(rest, users)
  {
    assert ([x] + rest)[0] == x;
    assert ([x] + rest)[1..] == rest;
  }

  lemma {:induction false} WithUsersInsert(l: Location, sorted: seq<Location>, users: int)
    ensures WithUsers(Insert(l, sorted), users)
         == (if l.users == users then [l] else []) + WithUsers(sorted, users)
  {
    var mine := if l.users == users then [l] else [];
    if sorted == [] || l.users >= sorted[0].users {
      WithUsersCons(l, sorted, users);
    } else {
      var head := sorted[0];
      var rest := Insert(l, sorted[1..]);
      WithUsersInsert(l, sorted[1..], users);
      WithUsersCons(head, rest, users);
      assert sorted == [head] + sorted[1..];
      WithUsersCons(head, sorted[1..], users);
      var theirs := if head.users == users then [head] else [];
      assert theirs == [] || mine == [];
      calc {
        WithUsers(Insert(l, sorted), users);
        theirs + WithUsers(rest, users);
        theirs + (mine + WithUsers(sorted[1..], users));
        mine + (theirs + WithUsers(sorted[1..], users));
        mine + WithUsers(sorted, users);
      }
    }
  }

  /** Stability: the locations with any given number of users keep their input order. */
  lemma {:induction false} SortIsStable(ls: seq<Location>, users: int)
    ensures WithUsers(SortByUsers(ls), users) == WithUsers(ls, users)
  {
    if ls != [] {
      SortIsStable(ls[1..], users);
      WithUsersInsert(ls[0], SortByUsers(ls[1..]), users);
    }
  }

  /** Taking one location out of a list takes its users out of the sum. */
  lemma SumRemoveAt(b: seq<Location>, k: nat)
    requires k < |b|
    ensures Sum(b) == b[k].users + Sum(b[..k] + b[k + 1..])
  {
    var front, x, back := b[..k], b[k], b[k + 1..];
    var tail := [x] + back;
    assert b == front + tail;
    SumAppend(front, tail);
    SumCons(x, back);
    SumAppend(front, back);
  }

  lemma SumCons(x: Location, rest: seq<Location>)
    ensures Sum([x] + rest) == x.users + Sum(rest)
  {
    assert ([x] + rest)[0] == x;
    assert ([x] + rest)[1..] == rest;
  }

  lemma MultisetRemoveAt(b: seq<Location>, k: nat)
    requires k < |b|
    ensures multiset(b[..k] + b[k + 1..]) == multiset(b) - multiset{b[k]}
  {
    assert b == b[..k] + [b[k]] + b[k + 1..];
  }

  /** The first element of a list occurs in any permutation of it; without both, what is left is again a permutation. */
  lemma PermutationWithoutHead(a: seq<Location>, b: seq<Location>) returns (k: nat)
    requires a != [] && multiset(a) == multiset(b)
    ensures k < |b| && b[k] == a[0]
    ensures multiset(a[1..]) == multiset(b[..k] + b[k + 1..])
  {
    assert a == [a[0]] + a[1..];
    assert a[0] in multiset(b);
    k :| 0 <= k < |b| && b[k] == a[0];
    MultisetRemoveAt(b, k);
  }

  /** Sums over a permutation agree, so sorting does not change the total. */
  lemma {:induction false} SumOfPermutation(a: seq<Location>, b: seq<Location>)
    requires multiset(a) == multiset(b)
    ensures Sum(a) == Sum(b)
    decreases |a|
  {
    if a != [] {
      var k := PermutationWithoutHead(a, b);
      SumOfPermutation(a[1..], b[..k] + b[k + 1..]);
      SumRemoveAt(b, k);
    }
  }

  lemma SortKeepsTotal(ls: seq<Location>)
    ensures TotalUsers(SortByUsers(ls)) == TotalUsers(ls)
  {
    TotalUsersIsSum(ls);
    TotalUsersIsSum(SortByUsers(ls));
    SumOfPermutation(SortByUsers(ls), ls);
  }

  // ---------------------------------------------------------------- colours and flags

  const Colors: seq<string> := ["bg-blue-500", "bg-green-500", "bg-purple-500", "bg-orange-500",
                                "bg-red-500", "bg-indigo-500", "bg-pink-500", "bg-teal-500"]

  /** `colors[index % colors.length]`: the palette repeats every eight rows. */
  function ColorAt(index: nat): (c: string)
    ensures c in Colors
    ensures index < |Colors| ==> c == Colors[index]
  {
    Colors[index % |Colors|]
  }

  /** Rows eight apart share a colour. */
  lemma ColorCycle(index: nat)
    ensures ColorAt(index + |Colors|) == ColorAt(index)
  {
    assert (index + |Colors|) % |Colors| == index % |Colors|;
  }

  const Globe: string := "🌍"

  const Flags: map<string, string> := map[
    "España" := "🇪🇸",
    "México" := "🇲🇽",
    "Argentina" := "🇦🇷",
    "Colombia" := "🇨🇴",
    "Chile" := "🇨🇱",
    "Perú" := "🇵🇪",
    "Estados Unidos" := "🇺🇸",
    "Brasil" := "🇧🇷",
    "Francia" := "🇫🇷",
    "Alemania" := "🇩🇪",
    "Reino Unido" := "🇬🇧",
    "Italia" := "🇮🇹",
    "Otros" := "🌍"
  ]

  /** `getCountryFlag(country)`: the listed flag, else the globe. */
  function CountryFlag(country: string): (f: string)
    ensures country in Flags ==> f == Flags[country]
    ensures country !in Flags ==> f == Globe
  {
    if country in Flags && Flags[country] != "" then Flags[country] else Globe
  }

  /** The empty country name is not in the table, so it gets the globe. */
  lemma EmptyCountryGetsGlobe()
    ensures CountryFlag("") == Globe
  {
    assert "" !in Flags;
  }

  // ---------------------------------------------------------------- rows and summary

  datatype LocationRow = LocationRow(flag: string, country: string, users: int, percentage: real, color: string)

  /** The country list: one row per location, in sorted order, coloured by position. */
  function Rows(ls: seq<Location>): (rows: seq<LocationRow>)
    ensures |rows| == |ls|
    ensures var sorted := SortByUsers(ls);
            forall i :: 0 <= i < |rows| ==>
              rows[i].country == sorted[i].country && rows[i].users == sorted[i].users
              && rows[i].percentage == sorted[i].percentage
              && rows[i].flag == CountryFlag(sorted[i].country) && rows[i].color == ColorAt(i)
    ensures forall i, j :: 0 <= i < j < |rows| ==> rows[i].users >= rows[j].users
  {
    var sorted := SortByUsers(ls);
    seq(|sorted|, i requires 0 <= i < |sorted| =>
      LocationRow(CountryFlag(sorted[i].country), sorted[i].country, sorted[i].users,
                  sorted[i].percentage, ColorAt(i)))
  }

  datatype Summary = Summary(countries: nat, topFlag: string, topPercentage: real)

  /**
   * The summary box: the number of countries, and the flag and percentage of
   * the first sorted location (the globe and 0 when there is none).
   */
  function SummaryOf(ls: seq<Location>): (s: Summary)
    ensures s.countries == |ls|
    ensures ls == [] ==> s.topFlag == Globe && s.topPercentage == 0.0
    ensures ls != [] ==> exists k :: 0 <= k < |ls| && s.topFlag == CountryFlag(ls[k].country)
                                     && s.topPercentage == ls[k].percentage
                                     && (forall j :: 0 <= j < |ls| ==> ls[k].users >= ls[j].users)
                                     && (forall j :: 0 <= j < k ==> ls[j].users < ls[k].users)
  {
    var sorted := SortByUsers(ls);
    if sorted == [] then
      EmptyCountryGetsGlobe();
      Summary(0, CountryFlag(""), 0.0)
    else
      TopIsEarliestLargest(ls);
      Summary(|sorted|, CountryFlag(sorted[0].country), sorted[0].percentage)
  }

  /** The first sorted location is one of the input locations, with the most users. */
  lemma TopIsLargest(ls: seq<Location>)
    requires ls != []
    ensures exists k :: 0 <= k < |ls| && ls[k] == SortByUsers(ls)[0]
    ensures forall j :: 0 <= j < |ls| ==> SortByUsers(ls)[0].users >= ls[j].users
  {
    var sorted := SortByUsers(ls);
    assert sorted[0] in multiset(ls);
    forall j | 0 <= j < |ls|
      ensures sorted[0].users >= ls[j].users
    {
      assert ls[j] in multiset(sorted);
      var m :| 0 <= m < |sorted| && sorted[m] == ls[j];
    }
  }

  /** The first location with `users` users heads the sublist of those locations. */
  lemma {:induction false} FirstWithUsers(ls: seq<Location>, users: int, i: nat) returns (k: nat)
    requires i < |ls| && ls[i].users == users
    ensures k <= i && ls[k].users == users
    ensures forall j :: 0 <= j < k ==> ls[j].users != users
    ensures WithUsers(ls, users) != [] && WithUsers(ls, users)[0] == ls[k]
  {
    if ls[0].users == users {
      k := 0;
    } else {
      var k' := FirstWithUsers(ls[1..], users, i - 1);
      k := k' + 1;
      assert forall j :: 1 <= j < |ls| ==> ls[j] == ls[1..][j - 1];
    }
  }

  /**
   * A reordering that keeps the locations with `sorted[0]`'s users in their
   * input order starts with the first of them in `ls`.
   */
  lemma HeadOfStableOrder(ls: seq<Location>, sorted: seq<Location>, i: nat) returns (k: nat)
    requires sorted != [] && i < |ls| && ls[i].users == sorted[0].users
    requires WithUsers(sorted, sorted[0].users) == WithUsers(ls, sorted[0].users)
    ensures k <= i && ls[k] == sorted[0]
    ensures forall j :: 0 <= j < k ==> ls[j].users != sorted[0].users
  {
    k := FirstWithUsers(ls, sorted[0].users, i);
    var z := FirstWithUsers(sorted, sorted[0].users, 0);
  }

  /** `EarliestLargest` without the index, for use inside expressions. */
  lemma {:induction false} TopIsEarliestLargest(ls: seq<Location>)
    requires ls != []
    ensures exists k :: 0 <= k < |ls| && ls[k] == SortByUsers(ls)[0]
                        && (forall j :: 0 <= j < |ls| ==> ls[k].users >= ls[j].users)
                        && (forall j :: 0 <= j < k ==> ls[j].users < ls[k].users)
  {
    var k := EarliestLargest(ls);
  }

  /**
   * With ties, the sort's stability makes the first sorted location the
   * earliest input location with the most users.
   */
  lemma EarliestLargest(ls: seq<Location>) returns (k: nat)
    requires ls != []
    ensures k < |ls| && ls[k] == SortByUsers(ls)[0]
    ensures forall j :: 0 <= j < |ls| ==> ls[k].users >= ls[j].users
    ensures forall j :: 0 <= j < k ==> ls[j].users < ls[k].users
  {
    var sorted := SortByUsers(ls);
    TopIsLargest(ls);
    SortIsStable(ls, sorted[0].users);
    var i :| 0 <= i < |ls| && ls[i] == sorted[0];
    k := HeadOfStableOrder(ls, sorted, i);
  }
}
