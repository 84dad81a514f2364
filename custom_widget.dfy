/**
 * The free-form custom widget: icon and theme lookups with their defaults,
 * the label shown under each metric (a camelCase key split into words), and
 * which sections of the card are shown for a given data object.
 */
module CustomWidget {
  import opened Wrappers

  // ---------------------------------------------------------------- icon and theme

  datatype IconKind = Settings | Info | Star | Zap

  /** `getCustomIcon`: the four known names, anything else (or nothing) gives Info. */
  function CustomIcon(kind: Option<string>): IconKind {
    match kind
    case Some("settings") => Settings
    case Some("info") => Info
    case Some("star") => Star
    case Some("zap") => Zap
    case _ => Info
  }

  /** The Info icon is the default: it is chosen exactly when the name is not settings, star or zap. */
  lemma CustomIconDefault(kind: Option<string>)
    ensures CustomIcon(kind) == Info <==> kind !in {Some("settings"), Some("star"), Some("zap")}
    ensures kind == Some("settings") ==> CustomIcon(kind) == Settings
    ensures kind == Some("star") ==> CustomIcon(kind) == Star
    ensures kind == Some("zap") ==> CustomIcon(kind) == Zap
  {
  }

  /** Class names for the card, the icon box, the title and the body text. */
  datatype Palette = Palette(container: string, icon: string, title: string, text: string)

  const GreenPalette := Palette("bg-green-50 border-green-200", "text-green-600 bg-green-100", "text-green-900", "text-green-700")
  const YellowPalette := Palette("bg-yellow-50 border-yellow-200", "text-yellow-600 bg-yellow-100", "text-yellow-900", "text-yellow-700")
  const RedPalette := Palette("bg-red-50 border-red-200", "text-red-600 bg-red-100", "text-red-900", "text-red-700")
  const BluePalette := Palette("bg-blue-50 border-blue-200", "text-blue-600 bg-blue-100", "text-blue-900", "text-blue-700")

  /** `getThemeStyles`. */
  function ThemeStyles(theme: Option<string>): Palette {
    match theme
    case Some("success") => GreenPalette
    case Some("warning") => YellowPalette
    case Some("error") => RedPalette
    case _ => BluePalette
  }

  /**
   * "info", a missing theme and an unknown theme all give the blue palette;
   * the three named themes give three other, pairwise different palettes.
   */
  lemma ThemeDefaultsToBlue(theme: Option<string>)
    ensures ThemeStyles(theme) == BluePalette <==> theme !in {Some("success"), Some("warning"), Some("error")}
    ensures ThemeStyles(Some("info")) == ThemeStyles(None) == BluePalette
    ensures |{ThemeStyles(Some("success")), ThemeStyles(Some("warning")), ThemeStyles(Some("error")), BluePalette}| == 4
  {
    assert GreenPalette.container != BluePalette.container;
    assert YellowPalette.container != BluePalette.container;
    assert RedPalette.container != BluePalette.container;
    assert GreenPalette.container[3] != YellowPalette.container[3];
    assert GreenPalette.container[3] != RedPalette.container[3];
    assert YellowPalette.container[3] != RedPalette.container[3];
  }

  // ---------------------------------------------------------------- metric labels

  /** The characters matched by `[A-Z]`: ASCII capitals only. */
  predicate IsAsciiUpper(c: char) {
    'A' <= c <= 'Z'
  }

  /** The white space and line terminators that `String.prototype.trim` removes. */
  predicate IsJsWhitespace(c: char) {
    c == ' ' || ('\t' <= c <= '\r') || c == '\U{00A0}' || c == '\U{1680}'
    || ('\U{2000}' <= c <= '\U{200A}') || c == '\U{2028}' || c == '\U{2029}'
    || c == '\U{202F}' || c == '\U{205F}' || c == '\U{3000}' || c == '\U{FEFF}'
  }

  predicate NoWhitespace(s: string) {
    forall i :: 0 <= i < |s| ==> !IsJsWhitespace(s[i])
  }

  predicate NoAsciiUpper(s: string) {
    forall i :: 0 <= i < |s| ==> !IsAsciiUpper(s[i])
  }

  /** `key.replace(/([A-Z])/g, " $1")`: a space before every ASCII capital. */
  function Spaced(key: string): string {
    if key == [] then []
    else (if IsAsciiUpper(key[0]) then [' ', key[0]] else [key[0]]) + Spaced(key[1..])
  }

  /** `s` with every space character deleted. */
  function Unspaced(s: string): (r: string)
    ensures |r| <= |s|
    ensures ' ' !in r
  {
    if s == [] then [] else (if s[0] == ' ' then [] else [s[0]]) + Unspaced(s[1..])
  }

  /** `trimStart`: drops leading white space and nothing else. */
  function TrimStart(s: string): (r: string)
    ensures |r| <= |s| && r == s[|s| - |r|..]
    ensures forall i :: 0 <= i < |s| - |r| ==> IsJsWhitespace(s[i])
    ensures r == [] || !IsJsWhitespace(r[0])
  {
    if s != [] && IsJsWhitespace(s[0]) then TrimStart(s[1..]) else s
  }

  /** `trimEnd`: drops trailing white space and nothing else. */
  function TrimEnd(s: string): (r: string)
    ensures |r| <= |s| && r == s[..|r|]
    ensures forall i :: |r| <= i < |s| ==> IsJsWhitespace(s[i])
    ensures r == [] || !IsJsWhitespace(r[|r| - 1])
  {
    if s != [] && IsJsWhitespace(s[|s| - 1]) then TrimEnd(s[..|s| - 1]) else s
  }

  /** `String.prototype.trim`. */
  function Trim(s: string): (r: string)
    ensures r == [] || (!IsJsWhitespace(r[0]) && !IsJsWhitespace(r[|r| - 1]))
    ensures exists a, b :: 0 <= a <= b <= |s| && r == s[a..b]
              && (forall i :: 0 <= i < a ==> IsJsWhitespace(s[i]))
              && (forall i :: b <= i < |s| ==> IsJsWhitespace(s[i]))
  {
    var t := TrimStart(s);
    var r := TrimEnd(t);
    TrimIsSlice(s, t, r);
    assert r != [] ==> r[0] == t[0];
    r
  }

  /** A prefix of a suffix of `s`, with white space after it, is the slice `s[a..b]`. */
  lemma TrimIsSlice(s: string, t: string, r: string)
    requires |t| <= |s| && t == s[|s| - |t|..]
    requires |r| <= |t| && r == t[..|r|]
    requires forall i :: |r| <= i < |t| ==> IsJsWhitespace(t[i])
    ensures r == s[|s| - |t|..|s| - |t| + |r|]
    ensures forall i :: |s| - |t| + |r| <= i < |s| ==> IsJsWhitespace(s[i])
  {
    var a := |s| - |t|;
    forall i | a + |r| <= i < |s| ensures IsJsWhitespace(s[i]) {
      assert s[i] == t[i - a];
    }
  }

  /** The label under a metric tile: `key.replace(/([A-Z])/g, " $1").trim()`. */
  function MetricLabel(key: string): (shown: string)
    ensures shown == [] || (shown[0] != ' ' && shown[|shown| - 1] != ' ')
  {
    Trim(Spaced(key))
  }

  lemma {:induction false} UnspacedAppend(a: string, b: string)
    ensures Unspaced(a + b) == Unspaced(a) + Unspaced(b)
    decreases |a|
  {
    if a != [] {
      assert (a + b)[0] == a[0];
      assert (a + b)[1..] == a[1..] + b;
      UnspacedAppend(a[1..], b);
    } else {
      assert a + b == b;
    }
  }

  lemma {:induction false} SpacedAppend(a: string, b: string)
    ensures Spaced(a + b) == Spaced(a) + Spaced(b)
    decreases |a|
  {
    if a != [] {
      assert (a + b)[0] == a[0];
      assert (a + b)[1..] == a[1..] + b;
      SpacedAppend(a[1..], b);
    } else {
      assert a + b == b;
    }
  }

  /** Deleting the spaces of the spaced key gives the key's own characters back. */
  lemma {:induction false} UnspacedSpaced(key: string)
    ensures Unspaced(Spaced(key)) == Unspaced(key)
    decreases |key|
  {
    if key != [] {
      var head := if IsAsciiUpper(key[0]) then [' ', key[0]] else [key[0]];
      UnspacedAppend(head, Spaced(key[1..]));
      if IsAsciiUpper(key[0]) {
        assert head[1..] == [key[0]];
        assert Unspaced(head) == Unspaced([key[0]]);
      }
      UnspacedSpaced(key[1..]);
    }
  }

  /** The only white space in a spaced key is its own plus the inserted spaces. */
  lemma {:induction false} SpacedWhitespace(key: string)
    requires NoWhitespace(key)
    ensures forall i :: 0 <= i < |Spaced(key)| && IsJsWhitespace(Spaced(key)[i]) ==> Spaced(key)[i] == ' '
    decreases |key|
  {
    if key != [] {
      var head := if IsAsciiUpper(key[0]) then [' ', key[0]] else [key[0]];
      assert Spaced(key) == head + Spaced(key[1..]);
      SpacedWhitespace(key[1..]);
    }
  }

  predicate OnlySpaces(s: string) {
    forall i :: 0 <= i < |s| && IsJsWhitespace(s[i]) ==> s[i] == ' '
  }

  /** Trimming a string whose only white space is spaces removes nothing but spaces. */
  lemma TrimKeepsUnspaced(s: string)
    requires OnlySpaces(s)
    ensures Unspaced(Trim(s)) == Unspaced(s)
  {
    TrimStartKeepsUnspaced(s);
    TrimEndKeepsUnspaced(TrimStart(s));
  }

  lemma TrimStartKeepsUnspaced(s: string)
    requires OnlySpaces(s)
    ensures OnlySpaces(TrimStart(s))
    ensures Unspaced(TrimStart(s)) == Unspaced(s)
  {
    var t := TrimStart(s);
    var cut := s[..|s| - |t|];
    assert s == cut + t;
    assert forall i :: 0 <= i < |cut| ==> cut[i] == s[i];
    AllSpacesVanish(cut);
    UnspacedAppend(cut, t);
  }

  lemma TrimEndKeepsUnspaced(t: string)
    requires OnlySpaces(t)
    ensures Unspaced(TrimEnd(t)) == Unspaced(t)
  {
    var r := TrimEnd(t);
    var tail := t[|r|..];
    assert t == r + tail;
    assert forall i :: 0 <= i < |tail| ==> tail[i] == t[|r| + i];
    AllSpacesVanish(tail);
    UnspacedAppend(r, tail);
  }

  lemma {:induction false} AllSpacesVanish(s: string)
    requires forall i :: 0 <= i < |s| ==> s[i] == ' '
    ensures Unspaced(s) == []
    decreases |s|
  {
    if s != [] {
      AllSpacesVanish(s[1..]);
    }
  }

  lemma {:induction false} UnspacedOfSpaceless(s: string)
    requires ' ' !in s
    ensures Unspaced(s) == s
    decreases |s|
  {
    if s != [] {
      assert s[0] != ' ';
      UnspacedOfSpaceless(s[1..]);
    }
  }

  /**
   * For a key without white space the label is the key split into words:
   * deleting the label's spaces gives the key back.
   */
  lemma MetricLabelRoundTrip(key: string)
    requires NoWhitespace(key)
    ensures Unspaced(MetricLabel(key)) == key
  {
    SpacedWhitespace(key);
    TrimKeepsUnspaced(Spaced(key));
    UnspacedSpaced(key);
    UnspacedOfSpaceless(key);
  }

  /** A key without ASCII capitals is only trimmed; accented capitals such as 'Á' are left alone. */
  lemma {:induction false} SpacedNoCapitals(key: string)
    requires NoAsciiUpper(key)
    ensures Spaced(key) == key
    decreases |key|
  {
    if key != [] {
      SpacedNoCapitals(key[1..]);
    }
  }

  lemma MetricLabelWithoutCapitals(key: string)
    requires NoAsciiUpper(key)
    ensures MetricLabel(key) == Trim(key)
  {
    SpacedNoCapitals(key);
  }

  /** Trimming leaves alone a string that starts and ends with something other than white space. */
  lemma TrimUnpadded(s: string)
    requires s != [] && !IsJsWhitespace(s[0]) && !IsJsWhitespace(s[|s| - 1])
    ensures Trim(s) == s
  {
  }

  /** A capital at the front of a piece gets one space before it. */
  lemma SpacedCapitalFirst(c: char, rest: string)
    requires IsAsciiUpper(c)
    ensures Spaced([c] + rest) == [' ', c] + Spaced(rest)
  {
    assert ([c] + rest)[1..] == rest;
  }

  /** A word without capitals followed by a capital: one space is inserted, before the capital. */
  lemma SpacedWordThenCapital(w: string, c: char, rest: string)
    requires NoAsciiUpper(w) && IsAsciiUpper(c)
    ensures Spaced(w + ([c] + rest)) == w + ([' ', c] + Spaced(rest))
  {
    SpacedNoCapitals(w);
    SpacedAppend(w, [c] + rest);
    SpacedCapitalFirst(c, rest);
  }

  /** Three words without capitals joined by two capitals: a space goes before each capital. */
  lemma SpacedTwoCapitals(w1: string, c2: char, w2: string, c3: char, w3: string)
    requires NoAsciiUpper(w1) && NoAsciiUpper(w2) && NoAsciiUpper(w3)
    requires IsAsciiUpper(c2) && IsAsciiUpper(c3)
    ensures Spaced(w1 + ([c2] + (w2 + ([c3] + w3)))) == w1 + ([' ', c2] + (w2 + ([' ', c3] + w3)))
  {
    SpacedWordThenCapital(w1, c2, w2 + ([c3] + w3));
    SpacedWordThenCapital(w2, c3, w3);
    SpacedNoCapitals(w3);
  }

  lemma SpacedNewUsersToday(key: string)
    requires key == "newUsersToday"
    ensures Spaced(key) == "new Users Today"
  {
    assert key == "new" + (['U'] + ("sers" + (['T'] + "oday")));
    SpacedTwoCapitals("new", 'U', "sers", 'T', "oday");
  }

  /** "newUsersToday" is shown as "new Users Today". */
  lemma NewUsersTodayLabel(key: string)
    requires key == "newUsersToday"
    ensures MetricLabel(key) == "new Users Today"
  {
    SpacedNewUsersToday(key);
    TrimUnpadded("new Users Today");
  }

  /** The accented capital of "totalÁreas" gets no space: the label is the key itself. */
  lemma AccentedCapitalUntouched(key: string)
    requires key == "totalÁreas"
    ensures MetricLabel(key) == key
  {
    SpacedNoCapitals(key);
    TrimUnpadded(key);
  }

  // ---------------------------------------------------------------- sections

  datatype MetricValue = Number(n: int) | Text(s: string)

  /** The action's `label`; `label` is a reserved word in Dafny, hence `text`. */
  datatype ActionData = ActionData(text: string)

  datatype CustomWidgetData = CustomWidgetData(
    message: Option<string>,
    title: Option<string>,
    icon: Option<string>,
    theme: Option<string>,
    items: Option<seq<string>>,
    metrics: Option<seq<(string, MetricValue)>>,
    action: Option<ActionData>,
    footer: Option<string>)

  /** A string field counts as set when present and non-empty. */
  predicate Truthy(s: Option<string>) {
    s.Some? && s.value != ""
  }

  datatype Tile = Tile(caption: string, value: MetricValue)

  /** What the card shows; a `None` block is not rendered. */
  datatype CustomView = CustomView(
    palette: Palette,
    header: bool,
    iconBox: Option<IconKind>,
    titleText: Option<string>,
    message: Option<string>,
    itemsBlock: Option<seq<string>>,
    metricsBlock: Option<seq<Tile>>,
    actionLabel: Option<string>,
    footer: Option<string>)

  const DefaultActionLabel: string := "Acción"

  function Tiles(metrics: seq<(string, MetricValue)>): (tiles: seq<Tile>)
    ensures |tiles| == |metrics|
    ensures forall i :: 0 <= i < |metrics| ==> tiles[i] == Tile(MetricLabel(metrics[i].0), metrics[i].1)
  {
    seq(|metrics|, i requires 0 <= i < |metrics| => Tile(MetricLabel(metrics[i].0), metrics[i].1))
  }

  /** A text block is rendered only for a set (non-empty) string, and then shows that string. */
  function TextBlock(s: Option<string>): (r: Option<string>)
    ensures r.Some? <==> Truthy(s)
    ensures r.Some? ==> r == s
  {
    if Truthy(s) then s else None
  }

  /** The action button: present whenever an action is given, labelled "Acción" when its label is empty. */
  function ActionLabel(action: Option<ActionData>): (r: Option<string>)
    ensures r.Some? <==> action.Some?
    ensures r.Some? ==> r.value != ""
    ensures action.Some? && action.value.text != "" ==> r == Some(action.value.text)
  {
    if action.None? then None
    else if action.value.text != "" then Some(action.value.text)
    else Some(DefaultActionLabel)
  }

  function View(d: CustomWidgetData): (v: CustomView)
    ensures v.header <==> Truthy(d.icon) || Truthy(d.title)
    ensures v.iconBox.Some? <==> Truthy(d.icon)
    ensures v.iconBox.Some? ==> v.iconBox.value == CustomIcon(d.icon)
    ensures v.itemsBlock.Some? <==> d.items.Some? && |d.items.value| > 0
    ensures v.itemsBlock.Some? ==> v.itemsBlock == d.items
    ensures v.metricsBlock.Some? <==> d.metrics.Some? && |d.metrics.value| > 0
    ensures v.metricsBlock.Some? ==> |v.metricsBlock.value| == |d.metrics.value|
    ensures v.message.Some? <==> Truthy(d.message)
    ensures v.footer.Some? <==> Truthy(d.footer)
    ensures v.actionLabel.Some? <==> d.action.Some?
    ensures v.palette == ThemeStyles(d.theme)
    ensures v.titleText == TextBlock(d.title) && v.message == TextBlock(d.message) && v.footer == TextBlock(d.footer)
    ensures v.metricsBlock.Some? ==> v.metricsBlock.value == Tiles(d.metrics.value)
    ensures v.actionLabel == ActionLabel(d.action)
  {
    CustomView(
      ThemeStyles(d.theme),
      Truthy(d.icon) || Truthy(d.title),
      if Truthy(d.icon) then Some(CustomIcon(d.icon)) else None,
      TextBlock(d.title),
      TextBlock(d.message),
      if d.items.Some? && |d.items.value| > 0 then d.items else None,
      if d.metrics.Some? && |d.metrics.value| > 0 then Some(Tiles(d.metrics.value)) else None,
      ActionLabel(d.action),
      TextBlock(d.footer))
  }
}
