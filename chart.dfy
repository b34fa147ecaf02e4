/**
 * The chart toolkit: the container's id, the CSS that declares one colour
 * variable per configured series for each theme, the context guard that
 * every chart part calls, and the label fallback of tooltips and legends.
 * A configuration is the list of its entries in `Object.entries` order.
 */
module Chart {
  import opened Wrappers
  import opened Text

  /** A `theme` record: the colour for the light and for the dark theme. */
  datatype ThemeColors = ThemeColors(light: Option<string>, dark: Option<string>)

  /** One series of the configuration; `caption` is its `label`. */
  datatype Entry = Entry(caption: Option<string>, color: Option<string>, theme: Option<ThemeColors>)

  type Config = seq<(string, Entry)>

  /** `THEMES`: the light theme with no selector prefix, then the dark one. */
  datatype Theme = Light | Dark {
    function Prefix(): string {
      match this
      case Light => ""
      case Dark => ".dark"
    }
  }

  const Themes: seq<Theme> := [Light, Dark]

  /** `chart-${id ?? uniqueId.replace(/:/g, "")}`. */
  function ChartId(id: Option<string>, uniqueId: string): (r: string)
    ensures IsPrefix("chart-", r)
    ensures id.Some? ==> r[6..] == id.value
    ensures id.None? ==> r[6..] == RemoveAll(uniqueId, ':')
    ensures id.None? ==> ':' !in r[6..] && |r| <= 6 + |uniqueId|
  {
    "chart-" + (if id.Some? then id.value else RemoveAll(uniqueId, ':'))
  }

  /** A generated id that already has no ':' is used as it is. */
  lemma ChartIdKeepsPlainIds(uniqueId: string)
    requires ':' !in uniqueId
    ensures ChartId(None, uniqueId) == "chart-" + uniqueId
  {
  }

  /** `Boolean(c.color || c.theme)`: the entry has a non-empty colour or a theme. */
  predicate Styled(e: Entry) {
    (e.color.Some? && e.color.value != "") || e.theme.Some?
  }

  /** `cfg.theme?.[theme] ?? cfg.color`. */
  function ColorFor(e: Entry, t: Theme): (r: Option<string>)
    ensures e.theme.None? ==> r == e.color
  {
    var themed := if e.theme.None? then None
                  else if t == Light then e.theme.value.light else e.theme.value.dark;
    if themed.Some? then themed else e.color
  }

  function Line(key: string, color: string): string {
    "  --color-" + key + ": " + color + ";"
  }

  /** The declaration lines of one theme, `.filter(Boolean)` having dropped the colourless entries. */
  function Lines(entries: Config, t: Theme): (r: seq<string>)
    ensures |r| <= |entries|
    ensures forall i :: 0 <= i < |r| ==> r[i] != ""
  {
    if entries == [] then []
    else
      var c := ColorFor(entries[0].1, t);
      var rest := Lines(entries[1..], t);
      if c.Some? && c.value != "" then [Line(entries[0].0, c.value)] + rest else rest
  }

  /** One entry gives a line exactly when its colour for the theme is a non-empty string. */
  lemma LinesOfOne(key: string, e: Entry, t: Theme)
    ensures Lines([(key, e)], t) ==
      (if ColorFor(e, t).Some? && ColorFor(e, t).value != "" then [Line(key, ColorFor(e, t).value)] else [])
  {
    assert [(key, e)][1..] == [];
  }

  /** Lines follow the configuration's order. */
  lemma {:induction false} LinesAppend(a: Config, b: Config, t: Theme)
    ensures Lines(a + b, t) == Lines(a, t) + Lines(b, t)
  {
    if a == [] {
      assert a + b == b;
    } else {
      assert (a + b)[1..] == a[1..] + b;
      LinesAppend(a[1..], b, t);
    }
  }

  /** A theme value, even "", hides the base colour for that theme: "" gives no line at all. */
  lemma ThemeValueWins(key: string, e: Entry, t: Theme, v: string)
    requires e.theme.Some?
    requires (if t == Light then e.theme.value.light else e.theme.value.dark) == Some(v)
    ensures ColorFor(e, t) == Some(v)
    ensures v == "" ==> Lines([(key, e)], t) == []
  {
    LinesOfOne(key, e, t);
  }

  /** `Object.entries(config).filter(([, c]) => c.theme || c.color)`. */
  function StyledEntries(config: Config): (r: Config)
    ensures |r| <= |config|
    ensures forall i :: 0 <= i < |r| ==> Styled(r[i].1)
  {
    if config == [] then []
    else if Styled(config[0].1) then [config[0]] + StyledEntries(config[1..])
    else StyledEntries(config[1..])
  }

  /** An entry is kept exactly when it is in the configuration and styled. */
  lemma {:induction false} StyledEntriesMembership(config: Config, x: (string, Entry))
    ensures x in StyledEntries(config) <==> x in config && Styled(x.1)
  {
    if config != [] {
      StyledEntriesMembership(config[1..], x);
      assert config == [config[0]] + config[1..];
    }
  }

  /** Dropping the unstyled entries drops no line: the CSS covers the whole configuration, in its order. */
  lemma {:induction false} LinesOfStyled(config: Config, t: Theme)
    ensures Lines(StyledEntries(config), t) == Lines(config, t)
  {
    if config != [] {
      LinesOfStyled(config[1..], t);
      if Styled(config[0].1) {
        LinesAppend([config[0]], StyledEntries(config[1..]), t);
        LinesOfOne(config[0].0, config[0].1, t);
      }
    }
  }

  /** `${prefix} [data-chart=${id}] {\n${body}\n}\n`. */
  function Block(t: Theme, id: string, entries: Config): string {
    t.Prefix() + " [data-chart=" + id + "] {\n" + Join("\n", Lines(entries, t)) + "\n}\n"
  }

  function Blocks(themes: seq<Theme>, id: string, entries: Config): (r: seq<string>)
    ensures |r| == |themes|
  {
    if themes == [] then [] else [Block(themes[0], id, entries)] + Blocks(themes[1..], id, entries)
  }

  /** `ChartStyle`: None renders nothing; otherwise the stylesheet text. */
  function ChartStyle(id: string, config: Config): (r: Option<string>)
    ensures r.None? <==> forall i :: 0 <= i < |config| ==> !Styled(config[i].1)
  {
    StyledEntriesEmptyIff(config);
    var entries := StyledEntries(config);
    if entries == [] then None else Some(Join("\n", Blocks(Themes, id, entries)))
  }

  lemma {:induction false} StyledEntriesEmptyIff(config: Config)
    ensures StyledEntries(config) == [] <==> forall i :: 0 <= i < |config| ==> !Styled(config[i].1)
  {
    if config != [] {
      StyledEntriesEmptyIff(config[1..]);
      assert forall i :: 1 <= i < |config| ==> config[i] == config[1..][i - 1];
    }
  }

  /** Otherwise the light block comes first and the dark block second, joined by a newline. */
  lemma ChartStyleShape(id: string, config: Config)
    requires ChartStyle(id, config).Some?
    ensures var entries := StyledEntries(config);
      ChartStyle(id, config).value == Block(Light, id, entries) + "\n" + Block(Dark, id, entries)
  {
    var entries := StyledEntries(config);
    assert Blocks(Themes, id, entries) == [Block(Light, id, entries), Block(Dark, id, entries)];
  }

  /** `useChart`: the configuration of the enclosing container, or the error it throws. */
  function UseChart(context: Option<Config>): (r: Result<Config, string>)
    ensures r.Failure? <==> context.None?
    ensures r.Success? ==> r.value == context.value
  {
    match context
    case None => Failure("useChart must be used within <ChartContainer />")
    case Some(config) => Success(config)
  }

  /** The entry for `key`: the first one, as object keys are unique. */
  function Lookup(config: Config, key: string): (r: Option<Entry>)
    ensures r.Some? ==> exists i :: 0 <= i < |config| && config[i] == (key, r.value)
    ensures r.None? ==> forall i :: 0 <= i < |config| ==> config[i].0 != key
  {
    if config == [] then None
    else if config[0].0 == key then Some(config[0].1)
    else Lookup(config[1..], key)
  }

  /** `config[it.name ?? ""]?.label ?? it.name`. */
  function ItemLabel(config: Config, name: Option<string>): (r: Option<string>)
    ensures r != name ==>
              r.Some? && exists i :: 0 <= i < |config| && config[i].0 == name.GetOr("") && config[i].1.caption == r
  {
    var e := Lookup(config, name.GetOr(""));
    if e.Some? && e.value.caption.Some? then e.value.caption else name
  }

  predicate DistinctKeys(config: Config) {
    forall i, j :: 0 <= i < j < |config| ==> config[i].0 != config[j].0
  }

  /** With unique keys, looking a key up finds its one entry. */
  lemma {:induction false} LookupFinds(config: Config, i: nat)
    requires DistinctKeys(config) && i < |config|
    ensures Lookup(config, config[i].0) == Some(config[i].1)
  {
    if i > 0 {
      assert config[0].0 != config[i].0;
      assert config[1..][i - 1] == config[i];
      LookupFinds(config[1..], i - 1);
    }
  }

  /** The configured label when the item's name is a key with a label, else the item's own name. */
  lemma ItemLabelFallback(config: Config, name: Option<string>, i: nat)
    requires DistinctKeys(config) && i < |config| && config[i].0 == name.GetOr("")
    ensures ItemLabel(config, name) == if config[i].1.caption.Some? then config[i].1.caption else name
  {
    LookupFinds(config, i);
  }

  /** A name that is not a key is shown as it is; a missing name shows nothing. */
  lemma ItemLabelUnconfigured(config: Config, name: Option<string>)
    requires forall i :: 0 <= i < |config| ==> config[i].0 != name.GetOr("")
    ensures ItemLabel(config, name) == name
  {
  }

  datatype Item<V> = Item(name: Option<string>, value: V, color: Option<string>)
  datatype Row<V> = Row(caption: Option<string>, value: V)

  /** `ChartTooltipContent`: the context guard runs first; no rows when inactive or the payload is missing or empty. */
  function Tooltip<V>(context: Option<Config>, active: bool, payload: Option<seq<Item<V>>>): (r: Result<Option<seq<Row<V>>>, string>)
    ensures context.None? <==> r.Failure?
    ensures r.Success? ==> (r.value.None? <==> !active || payload.None? || payload.value == [])
    ensures r.Success? && r.value.Some? ==> |r.value.value| == |payload.value|
    ensures r.Success? && r.value.Some? ==> forall i :: 0 <= i < |r.value.value| ==>
      r.value.value[i] == Row(ItemLabel(context.value, payload.value[i].name), payload.value[i].value)
  {
    match UseChart(context)
    case Failure(e) => Failure(e)
    case Success(config) =>
      if !active || payload.None? || payload.value == [] then Success(None)
      else Success(Some(seq(|payload.value|, i requires 0 <= i < |payload.value| =>
                              Row(ItemLabel(config, payload.value[i].name), payload.value[i].value))))
  }

  datatype LegendItem = LegendItem(caption: Option<string>, swatch: Option<Option<string>>)

  /** `ChartLegendContent`: as the tooltip but without the `active` flag; the swatch is hidden with `hideIcon`. */
  function Legend<V>(context: Option<Config>, payload: Option<seq<Item<V>>>, hideIcon: bool): (r: Result<Option<seq<LegendItem>>, string>)
    ensures context.None? <==> r.Failure?
    ensures r.Success? ==> (r.value.None? <==> payload.None? || payload.value == [])
    ensures r.Success? && r.value.Some? ==> |r.value.value| == |payload.value|
    ensures r.Success? && r.value.Some? ==> forall i :: 0 <= i < |r.value.value| ==>
      r.value.value[i] == LegendItem(ItemLabel(context.value, payload.value[i].name),
                                     if hideIcon then None else Some(payload.value[i].color))
  {
    match UseChart(context)
    case Failure(e) => Failure(e)
    case Success(config) =>
      if payload.None? || payload.value == [] then Success(None)
      else Success(Some(seq(|payload.value|, i requires 0 <= i < |payload.value| =>
                              LegendItem(ItemLabel(config, payload.value[i].name),
                                         if hideIcon then None else Some(payload.value[i].color)))))
  }
}
