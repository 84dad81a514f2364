/**
 * The customer growth widget: the growth badge, "this month", the bar chart
 * over the last six months with three-letter labels, and the peak value.
 * Bar heights and the rounded average are floating point and not modelled.
 */
module UserGrowthWidget {
  import opened Wrappers
  import JsNumbers

  datatype MonthlyData = MonthlyData(month: string, users: int)

  const ChartMonths: nat := 6

  /** `monthly.slice(-6)`: the last six months, or all of them when there are fewer. */
  function RecentMonths(ms: seq<MonthlyData>): (r: seq<MonthlyData>)
    ensures |r| == if |ms| < ChartMonths then |ms| else ChartMonths
    ensures ms == ms[..|ms| - |r|] + r
  {
    var start := if |ms| > ChartMonths then |ms| - ChartMonths else 0;
    ms[start..]
  }

  /** `month.slice(0, 3)`: the first three characters, or the whole name if shorter. */
  function MonthLabel(month: string): (short: string)
    ensures |short| == if |month| < 3 then |month| else 3
    ensures short <= month
  {
    if |month| <= 3 then month else month[..3]
  }

  /**
   * `Math.max(...ms.map(m => m.users))`. With no months JavaScript gives
   * -Infinity, written here as `None`.
   */
  function MaxUsers(ms: seq<MonthlyData>): (r: Option<int>)
    ensures r.None? <==> ms == []
  {
    if ms == [] then None
    else
      var rest := MaxUsers(ms[1..]);
      if rest.None? || ms[0].users >= rest.value then Some(ms[0].users) else rest
  }

  /** The peak bounds every month and is reached by one of them. */
  lemma {:induction false} MaxUsersIsPeak(ms: seq<MonthlyData>) returns (k: nat)
    requires ms != []
    ensures forall i :: 0 <= i < |ms| ==> ms[i].users <= MaxUsers(ms).value
    ensures k < |ms| && ms[k].users == MaxUsers(ms).value
  {
    var tail := ms[1..];
    if tail == [] {
      k := 0;
    } else {
      var j := MaxUsersIsPeak(tail);
      assert forall i :: 1 <= i < |ms| ==> ms[i] == tail[i - 1];
      if ms[0].users >= MaxUsers(tail).value {
        k := 0;
      } else {
        k := j + 1;
      }
    }
  }

  /** The peak bounds every month. */
  lemma MaxUsersBoundsAll(ms: seq<MonthlyData>)
    requires ms != []
    ensures forall i :: 0 <= i < |ms| ==> ms[i].users <= MaxUsers(ms).value
  {
    var _ := MaxUsersIsPeak(ms);
  }

  /** One bar: its label and the users it stands for. */
  datatype Bar = Bar(caption: string, users: int)

  /** The chart: one bar per recent month, in order, scaled by the largest of them. */
  datatype Chart = Chart(bars: seq<Bar>, scale: Option<int>)

  function ChartOf(ms: seq<MonthlyData>): (c: Chart)
    ensures |c.bars| == |RecentMonths(ms)|
    ensures forall i :: 0 <= i < |c.bars| ==>
              c.bars[i] == Bar(MonthLabel(RecentMonths(ms)[i].month), RecentMonths(ms)[i].users)
    ensures c.scale == MaxUsers(RecentMonths(ms))
    ensures c.scale.Some? <==> ms != []
    ensures c.scale.Some? ==> forall i :: 0 <= i < |c.bars| ==> c.bars[i].users <= c.scale.value
  {
    var recent := RecentMonths(ms);
    var bars := seq(|recent|, i requires 0 <= i < |recent| => Bar(MonthLabel(recent[i].month), recent[i].users));
    if recent == [] then Chart(bars, None)
    else
      MaxUsersBoundsAll(recent);
      Chart(bars, MaxUsers(recent))
  }

  /** The chart's scale never exceeds the peak over the whole list. */
  lemma ChartScaleAtMostPeak(ms: seq<MonthlyData>)
    requires ms != []
    ensures MaxUsers(RecentMonths(ms)).value <= MaxUsers(ms).value
  {
    var recent := RecentMonths(ms);
    var k := MaxUsersIsPeak(recent);
    var _ := MaxUsersIsPeak(ms);
    assert recent[k] == ms[|ms| - |recent| + k];
  }

  /** A value that bounds every month and is reached by one of them is the peak. */
  lemma MaxUsersIs(ms: seq<MonthlyData>, k: nat, v: int)
    requires k < |ms| && ms[k].users == v
    requires forall i :: 0 <= i < |ms| ==> ms[i].users <= v
    ensures MaxUsers(ms) == Some(v)
  {
    var j := MaxUsersIsPeak(ms);
    assert ms[j].users <= v;
  }

  /**
   * The chart's scale can be below the peak: with seven months, the first is
   * not plotted, so a peak in that month is not the chart's scale.
   */
  lemma ChartScaleCanBeBelowPeak(ms: seq<MonthlyData>)
    requires |ms| == 7
    requires ms[0].users == 900 && forall i :: 1 <= i < 7 ==> ms[i].users == i
    ensures MaxUsers(RecentMonths(ms)) == Some(6) && MaxUsers(ms) == Some(900)
  {
    var recent := RecentMonths(ms);
    assert forall i :: 0 <= i < |recent| ==> recent[i] == ms[i + 1];
    MaxUsersIs(recent, 5, 6);
    MaxUsersIs(ms, 0, 900);
  }

  /** "Este mes": the last month's users, or 0 when there are no months; it is the chart's last bar and never above the peak. */
  function ThisMonth(ms: seq<MonthlyData>): (n: int)
    ensures ms == [] ==> n == 0
    ensures ms != [] ==> n == ms[|ms| - 1].users
    ensures ms != [] ==> n == RecentMonths(ms)[|RecentMonths(ms)| - 1].users
    ensures ms != [] ==> n <= MaxUsers(ms).value
  {
    if ms == [] then 0
    else
      MaxUsersBoundsAll(ms);
      ms[|ms| - 1].users
  }

  datatype GrowthBadge = GrowthBadge(trendingUp: bool, plusSign: bool, green: bool)

  /** `percentage >= 0` decides icon, sign and colour together; NaN counts as negative. */
  function GrowthBadgeOf(percentage: JsNumbers.JsNumber): (b: GrowthBadge)
    ensures b.trendingUp == b.plusSign == b.green
    ensures b.trendingUp <==> percentage.PosInfinity? || (percentage.Finite? && percentage.value >= 0.0)
  {
    var positive := JsNumbers.AtLeast(percentage, JsNumbers.Finite(0.0));
    GrowthBadge(positive, positive, positive)
  }
}
