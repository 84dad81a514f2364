/**
 * The customer activity widget: one row per activity, in order, with an icon
 * chosen by an ordered, case-sensitive keyword test on the action text, and
 * an empty-state block when there are no activities.
 */
module UserActivityWidget {

  /** `sub` occurs in `s` starting at index `k`. */
  predicate OccursAt(s: string, sub: string, k: int) {
    0 <= k && k + |sub| <= |s| && s[k..k + |sub|] == sub
  }

  /** `s.includes(sub)`: some index of `s` starts an occurrence of `sub` (case-sensitive). */
  predicate Contains(s: string, sub: string) {
    exists k :: 0 <= k <= |s| && OccursAt(s, sub, k)
  }

  /**
   * If every position of `s` holding the first character of `sub` is in
   * `starts`, and no member of `starts` begins an occurrence, then `s` does not
   * contain `sub`.
   */
  lemma NoOccurrence(s: string, sub: string, starts: set<int>)
    requires |sub| > 0
    requires forall k :: 0 <= k < |s| && s[k] == sub[0] ==> k in starts
    requires forall k :: k in starts ==> !OccursAt(s, sub, k)
    ensures !Contains(s, sub)
  {
  }

  /** The five icons: 🔐, 🛒, ✏️, 💬 and 👤. */
  datatype Icon = Lock | Cart | Pencil | Speech | Person

  function Glyph(icon: Icon): string {
    match icon
    case Lock => "🔐"
    case Cart => "🛒"
    case Pencil => "✏️"
    case Speech => "💬"
    case Person => "👤"
  }

  /** The keyword groups in the order they are tried, each with the icon it selects. */
  const KeywordGroups: seq<(Icon, seq<string>)> := [
    (Lock, ["login", "ingresó"]),
    (Cart, ["compra", "purchase"]),
    (Pencil, ["actualiz", "update"]),
    (Speech, ["mensaje", "message"])
  ]

  /** All eight keywords. */
  const Keywords: seq<string> := ["login", "ingresó", "compra", "purchase", "actualiz", "update", "mensaje", "message"]

  /** Reference reading of a keyword table: the icon of the first group one of whose keywords occurs, else 👤. */
  function FirstMatch(groups: seq<(Icon, seq<string>)>, action: string): Icon {
    if groups == [] then Person
    else if exists w :: w in groups[0].1 && Contains(action, w) then groups[0].0
    else FirstMatch(groups[1..], action)
  }

  /** `getActivityIcon`. */
  function ActivityIcon(action: string): Icon {
    if Contains(action, "login") || Contains(action, "ingresó") then Lock
    else if Contains(action, "compra") || Contains(action, "purchase") then Cart
    else if Contains(action, "actualiz") || Contains(action, "update") then Pencil
    else if Contains(action, "mensaje") || Contains(action, "message") then Speech
    else Person
  }

  /** The chain of tests is the keyword table read group by group, first match first. */
  lemma ActivityIconFollowsTable(action: string)
    ensures ActivityIcon(action) == FirstMatch(KeywordGroups, action)
  {
    var g0 := KeywordGroups;
    var g1, g2, g3 := g0[1..], g0[1..][1..], g0[1..][1..][1..];
    assert g3 == [(Speech, ["mensaje", "message"])];
    assert g2 == [(Pencil, ["actualiz", "update"])] + g3;
    assert g1 == [(Cart, ["compra", "purchase"])] + g2;
    assert g0 == [(Lock, ["login", "ingresó"])] + g1;
    GroupTest(action, Speech, "mensaje", "message");
    assert g3[1..] == [];
    assert FirstMatch(g3, action) == if Contains(action, "mensaje") || Contains(action, "message") then Speech else Person;
    GroupTest(action, Pencil, "actualiz", "update");
    assert FirstMatch(g2, action) == if Contains(action, "actualiz") || Contains(action, "update") then Pencil else FirstMatch(g3, action);
    GroupTest(action, Cart, "compra", "purchase");
    assert FirstMatch(g1, action) == if Contains(action, "compra") || Contains(action, "purchase") then Cart else FirstMatch(g2, action);
    GroupTest(action, Lock, "login", "ingresó");
    assert FirstMatch(g0, action) == if Contains(action, "login") || Contains(action, "ingresó") then Lock else FirstMatch(g1, action);
  }

  /** A group of two keywords matches iff one of the two occurs. */
  lemma GroupTest(action: string, icon: Icon, first: string, second: string)
    ensures (exists w :: w in (icon, [first, second]).1 && Contains(action, w))
            <==> Contains(action, first) || Contains(action, second)
  {
    if Contains(action, first) {
      assert first in (icon, [first, second]).1;
    } else if Contains(action, second) {
      assert second in (icon, [first, second]).1;
    }
  }

  /** An action gets 👤 exactly when none of the eight keywords occurs in it. */
  lemma PersonIffNoKeyword(action: string)
    ensures ActivityIcon(action) == Person <==> forall w :: w in Keywords ==> !Contains(action, w)
  {
    var k := Keywords;
    assert k == ["login", "ingresó", "compra", "purchase", "actualiz", "update", "mensaje", "message"];
    if ActivityIcon(action) != Person {
      var i :| 0 <= i < |k| && Contains(action, k[i]) by {
        if Contains(action, k[0]) { } else if Contains(action, k[1]) { }
        else if Contains(action, k[2]) { } else if Contains(action, k[3]) { }
        else if Contains(action, k[4]) { } else if Contains(action, k[5]) { }
        else if Contains(action, k[6]) { } else { assert Contains(action, k[7]); }
      }
      assert k[i] in Keywords;
    }
  }

  /** When several groups match, the earliest wins: "login compra" gets 🔐, not 🛒. */
  lemma EarliestGroupWins()
    ensures Contains("login compra", "compra")
    ensures ActivityIcon("login compra") == Lock
  {
    var s := "login compra";
    assert OccursAt(s, "login", 0);
    assert OccursAt(s, "compra", 6);
  }

  /** The seeded actions of the activity widget. */
  const PurchaseSeed: string := "Compra realizada"
  const ProfileSeed: string := "Actualización de perfil"

  /** A word with a character outside the characters `cs` of `s` does not occur in `s`. */
  lemma MissingCharacter(s: string, cs: set<char>, sub: string, i: nat)
    requires forall k :: 0 <= k < |s| ==> s[k] in cs
    requires i < |sub| && sub[i] !in cs
    ensures !Contains(s, sub)
  {
    forall k | 0 <= k <= |s| ensures !OccursAt(s, sub, k) {
      if k + |sub| <= |s| {
        assert s[k..k + |sub|][i] == s[k + i];
      }
    }
  }

  /** No keyword occurs in "Compra realizada": each has a character the action lacks. */
  lemma PurchaseLacksKeywords()
    ensures forall w :: w in Keywords ==> !Contains(PurchaseSeed, w)
  {
    var s := PurchaseSeed;
    var cs := {'C', 'o', 'm', 'p', 'r', 'a', ' ', 'e', 'l', 'i', 'z', 'd'};
    assert forall k :: 0 <= k < |s| ==> s[k] in cs;
    MissingCharacter(s, cs, "login", 2);
    MissingCharacter(s, cs, "ingresó", 1);
    MissingCharacter(s, cs, "compra", 0);
    MissingCharacter(s, cs, "purchase", 1);
    MissingCharacter(s, cs, "actualiz", 1);
    MissingCharacter(s, cs, "update", 0);
    MissingCharacter(s, cs, "mensaje", 2);
    MissingCharacter(s, cs, "message", 2);
  }

  /** "Actualización de perfil" holds every character of "actualiz"; no 'a' of it starts the word. */
  lemma ProfileLacksActualiz()
    ensures !Contains(ProfileSeed, "actualiz")
  {
    var s := ProfileSeed;
    assert forall k :: 0 <= k < |s| && s[k] == 'a' ==> k in {4, 8};
    assert !OccursAt(s, "actualiz", 4) by { assert s[4..12][1] == s[5] == 'l'; }
    assert !OccursAt(s, "actualiz", 8) by { assert s[8..16][2] == s[10] == 'i'; }
    NoOccurrence(s, "actualiz", {4, 8});
  }

  /** Nor does its one 'u' start "update". */
  lemma ProfileLacksUpdate()
    ensures !Contains(ProfileSeed, "update")
  {
    var s := ProfileSeed;
    assert forall k :: 0 <= k < |s| && s[k] == 'u' ==> k in {3};
    assert !OccursAt(s, "update", 3) by { assert s[3..9][1] == s[4] == 'a'; }
    NoOccurrence(s, "update", {3});
  }

  /**
   * No keyword occurs in "Actualización de perfil": all but "actualiz" and
   * "update" have a character the action lacks.
   */
  lemma ProfileLacksKeywords()
    ensures forall w :: w in Keywords ==> !Contains(ProfileSeed, w)
  {
    var s := ProfileSeed;
    var cs := {'A', 'c', 't', 'u', 'a', 'l', 'i', 'z', 'ó', 'n', ' ', 'd', 'e', 'p', 'r', 'f'};
    assert forall k :: 0 <= k < |s| ==> s[k] in cs;
    MissingCharacter(s, cs, "login", 2);
    MissingCharacter(s, cs, "ingresó", 2);
    MissingCharacter(s, cs, "compra", 2);
    MissingCharacter(s, cs, "purchase", 4);
    MissingCharacter(s, cs, "mensaje", 0);
    MissingCharacter(s, cs, "message", 0);
    ProfileLacksActualiz();
    ProfileLacksUpdate();
  }

  /** The test is case-sensitive: the seeded "Compra realizada" matches no keyword and gets 👤. */
  lemma CapitalisedPurchaseIsPerson()
    ensures ActivityIcon(PurchaseSeed) == Person
  {
    PurchaseLacksKeywords();
    PersonIffNoKeyword(PurchaseSeed);
  }

  /** Likewise "Actualización de perfil" contains "Actualiz" but not "actualiz", and gets 👤. */
  lemma CapitalisedUpdateIsPerson()
    ensures ActivityIcon(ProfileSeed) == Person
  {
    ProfileLacksKeywords();
    PersonIffNoKeyword(ProfileSeed);
  }

  datatype Activity = Activity(user: string, action: string, time: string)

  /** `getTimeAgo`: the time text is shown as given. */
  function TimeAgo(time: string): string {
    time
  }

  /** One rendered row: icon, user, action and time text. */
  datatype Row = Row(icon: Icon, user: string, action: string, time: string)

  datatype ActivityView = ActivityView(rows: seq<Row>, emptyState: bool)

  function View(activities: seq<Activity>): (v: ActivityView)
    ensures |v.rows| == |activities|
    ensures forall i :: 0 <= i < |activities| ==>
              v.rows[i] == Row(ActivityIcon(activities[i].action), activities[i].user,
                               activities[i].action, activities[i].time)
    ensures v.emptyState <==> activities == []
  {
    ActivityView(
      seq(|activities|, i requires 0 <= i < |activities| =>
        Row(ActivityIcon(activities[i].action), activities[i].user, activities[i].action, TimeAgo(activities[i].time))),
      |activities| == 0)
  }

  /** Rows follow the activities in order: the view of a concatenation is the concatenation of the views. */
  lemma ViewOfConcat(a: seq<Activity>, b: seq<Activity>)
    ensures View(a + b).rows == View(a).rows + View(b).rows
    ensures View(a + b).emptyState <==> View(a).emptyState && View(b).emptyState
  {
    assert forall i :: 0 <= i < |b| ==> (a + b)[|a| + i] == b[i];
  }
}
