/**
 * The block's settings schema: the tree of fields the host's settings panel
 * shows (sections, switches with `on`/`off` children, default values, choices
 * and validation rules), the values the host persists for one block, which
 * conditional fields are visible for given switch values, and the fixed-height
 * validation rule `^\d+(?:px)?$`.
 */
module Settings {
  import opened Types

  // ---------------------------------------------------------------------------
  // The fixed-height rule.
  // ---------------------------------------------------------------------------

  /**
   * The language of the pattern `^\d+(?:px)?$` (no flags that change `\d` or
   * `$`): a non-empty run of the digits '0'..'9' followed either by nothing or
   * by exactly the two characters "px", and then the end of the input.
   */
  ghost predicate InHeightLanguage(s: string)
  {
    exists n | 1 <= n <= |s| :: AllDigits(s[..n]) && (s[n..] == "" || s[n..] == "px")
  }

  /** What the pattern `\d*(?:px)?$` accepts of the input left after the first digit. */
  function MatchRest(t: string): bool
    decreases |t|
  {
    if t == [] then true
    else if IsDigit(t[0]) then MatchRest(t[1..])
    else t == "px"
  }

  /**
   * The validator of the fixed-height field: the whole input must match the
   * anchored pattern; `\d+` needs a first digit, the rest is MatchRest.
   */
  function MatchFixedHeight(s: string): bool
  {
    |s| > 0 && IsDigit(s[0]) && MatchRest(s[1..])
  }

  /** A digit run of length `n` starts with a digit and continues with a run of `n - 1`. */
  lemma DigitsHead(s: string, n: nat)
    requires 1 <= n <= |s| && AllDigits(s[..n])
    ensures IsDigit(s[0]) && AllDigits(s[1..][..n - 1]) && s[1..][n - 1..] == s[n..]
  {
    assert s[..n][0] == s[0];
    var run, tail := s[..n], s[1..][..n - 1];
    forall i | 0 <= i < |tail|
      ensures IsDigit(tail[i])
    {
      assert tail[i] == run[i + 1];
    }
  }

  /** A digit followed by a run of `k` digits is a run of `k + 1`. */
  lemma DigitsCons(s: string, k: nat)
    requires 1 <= |s| && IsDigit(s[0]) && k <= |s| - 1 && AllDigits(s[1..][..k])
    ensures AllDigits(s[..k + 1]) && s[k + 1..] == s[1..][k..]
  {
    var run, tail := s[..k + 1], s[1..][..k];
    forall i | 0 <= i < |run|
      ensures IsDigit(run[i])
    {
      if i > 0 {
        assert run[i] == tail[i - 1];
      }
    }
  }

  lemma {:induction false} MatchRestIff(t: string)
    ensures MatchRest(t) <==>
      exists n | 0 <= n <= |t| :: AllDigits(t[..n]) && (t[n..] == "" || t[n..] == "px")
    decreases |t|
  {
    if t == [] {
      assert AllDigits(t[..0]) && t[0..] == "";
    } else if IsDigit(t[0]) {
      MatchRestIff(t[1..]);
      if MatchRest(t) {
        var k :| 0 <= k <= |t[1..]| && AllDigits(t[1..][..k]) && (t[1..][k..] == "" || t[1..][k..] == "px");
        DigitsCons(t, k);
      } else {
        forall n | 0 <= n <= |t|
          ensures !(AllDigits(t[..n]) && (t[n..] == "" || t[n..] == "px"))
        {
          if n == 0 {
            assert t[0..] == t;
            assert t[0] != "px"[0];
          } else if AllDigits(t[..n]) {
            DigitsHead(t, n);
          }
        }
      }
    } else {
      if MatchRest(t) {
        assert AllDigits(t[..0]) && t[0..] == t;
      } else {
        forall n | 0 <= n <= |t|
          ensures !(AllDigits(t[..n]) && (t[n..] == "" || t[n..] == "px"))
        {
          if n > 0 {
            assert t[..n][0] == t[0];
          }
          assert t[0..] == t;
        }
      }
    }
  }

  /** The validator accepts exactly the strings of the pattern's language. */
  lemma MatchFixedHeightIff(s: string)
    ensures MatchFixedHeight(s) <==> InHeightLanguage(s)
  {
    if |s| > 0 {
      MatchRestIff(s[1..]);
      if MatchFixedHeight(s) {
        var k :| 0 <= k <= |s[1..]| && AllDigits(s[1..][..k]) && (s[1..][k..] == "" || s[1..][k..] == "px");
        DigitsCons(s, k);
      } else {
        forall n | 1 <= n <= |s|
          ensures !(AllDigits(s[..n]) && (s[n..] == "" || s[n..] == "px"))
        {
          if AllDigits(s[..n]) {
            DigitsHead(s, n);
          }
        }
      }
    }
  }

  lemma {:induction false} MatchRestOfDigits(d: string)
    requires AllDigits(d)
    ensures MatchRest(d) && MatchRest(d + "px")
    decreases |d|
  {
    if d != [] {
      MatchRestOfDigits(d[1..]);
      assert (d + "px")[1..] == d[1..] + "px";
    }
  }

  /**
   * For a string of digits `d`, the validator accepts `d` exactly when it
   * accepts `d + "px"`, and it accepts both exactly when `d` is not empty.
   */
  lemma DigitsWithAndWithoutPx(d: string)
    requires AllDigits(d)
    ensures MatchFixedHeight(d) <==> MatchFixedHeight(d + "px")
    ensures MatchFixedHeight(d) <==> |d| > 0
  {
    if d == [] {
      assert d + "px" == "px";
    } else {
      MatchRestOfDigits(d[1..]);
      assert (d + "px")[1..] == d[1..] + "px";
    }
  }

  /**
   * Sample inputs of the rule: plain and "px"-suffixed numbers are in the
   * language; the empty string, a bare "px", signs, decimal points, spaces,
   * an upper-case suffix, a doubled suffix and a trailing newline are not.
   */
  lemma HeightSamples()
    ensures MatchFixedHeight("500px") && InHeightLanguage("500px")
    ensures MatchFixedHeight("0") && InHeightLanguage("0")
    ensures !MatchFixedHeight("") && !InHeightLanguage("")
    ensures !MatchFixedHeight("px") && !InHeightLanguage("px")
    ensures !MatchFixedHeight("-5") && !InHeightLanguage("-5")
    ensures !MatchFixedHeight("+5") && !InHeightLanguage("+5")
    ensures !MatchFixedHeight("5.5") && !InHeightLanguage("5.5")
    ensures !MatchFixedHeight(" 5") && !InHeightLanguage(" 5")
    ensures !MatchFixedHeight("5 px") && !InHeightLanguage("5 px")
    ensures !MatchFixedHeight("5PX") && !InHeightLanguage("5PX")
    ensures !MatchFixedHeight("5pxpx") && !InHeightLanguage("5pxpx")
    ensures !MatchFixedHeight("5\n") && !InHeightLanguage("5\n")
    ensures !MatchFixedHeight("5px\n") && !InHeightLanguage("5px\n")
  {
    // The equivalence for each sample keeps the solver from searching for witnesses on its own.
    MatchFixedHeightIff("500px");
    MatchFixedHeightIff("0");
    MatchFixedHeightIff("");
    MatchFixedHeightIff("px");
    MatchFixedHeightIff("-5");
    MatchFixedHeightIff("+5");
    MatchFixedHeightIff("5.5");
    MatchFixedHeightIff(" 5");
    MatchFixedHeightIff("5 px");
    MatchFixedHeightIff("5PX");
    MatchFixedHeightIff("5pxpx");
    MatchFixedHeightIff("5\n");
    MatchFixedHeightIff("5px\n");
  }

  // ---------------------------------------------------------------------------
  // The settings tree.
  // ---------------------------------------------------------------------------

  datatype FieldId =
    | ApiKey | AllowMapControls
    | MarkerIconEnabled | MarkerIcon
    | MapStyleEnabled | MapStyle
    | CustomMapFormat | FixedHeight | FormatPreset

  datatype Section = Main | Basics | Layout

  datatype InputType = Input | Switch | AssetInput | Textarea | Slider

  /** A field value as the host stores it: text or a switch flag. */
  datatype Value = Text(text: string) | Flag(flag: bool)

  /** A validation rule attached to a field. */
  datatype Rule = HeightPattern | ValidJson

  /**
   * One field of the schema. The `on` children are shown while this switch is
   * on, the `off` children while it is off.
   */
  datatype Field = Field(
    id: FieldId,
    kind: InputType,
    defaultValue: Option<Value>,
    rules: seq<Rule>,
    choices: seq<string>,
    on: seq<Field>,
    off: seq<Field>)

  datatype SectionFields = SectionFields(section: Section, fields: seq<Field>)

  /** A field that has no rules, choices or children. */
  function Plain(id: FieldId, kind: InputType, defaultValue: Option<Value>): Field
  {
    Field(id, kind, defaultValue, [], [], [], [])
  }

  /** The three choices of the aspect-ratio slider. */
  const FormatChoices: seq<string> := ["16to9", "4to3", "1to1"]

  // The fields of the schema, as the block declares them.
  const ApiKeyField := Plain(ApiKey, Input, Some(Text("")))
  const AllowMapControlsField := Plain(AllowMapControls, Switch, Some(Flag(true)))
  const MarkerIconField := Plain(MarkerIcon, AssetInput, None)
  const MarkerIconEnabledField :=
    Field(MarkerIconEnabled, Switch, Some(Flag(false)), [], [], [MarkerIconField], [])
  const MapStyleField := Field(MapStyle, Textarea, Some(Text("[]")), [ValidJson], [], [], [])
  const MapStyleEnabledField :=
    Field(MapStyleEnabled, Switch, Some(Flag(false)), [], [], [MapStyleField], [])
  const FixedHeightField := Field(FixedHeight, Input, None, [HeightPattern], [], [], [])
  const FormatPresetField := Field(FormatPreset, Slider, Some(Text("16to9")), [], FormatChoices, [], [])
  const CustomMapFormatField :=
    Field(CustomMapFormat, Switch, Some(Flag(false)), [], [], [FixedHeightField], [FormatPresetField])

  /** The schema: the Main, Basics and Layout sections in order. */
  const Schema: seq<SectionFields> := [
    SectionFields(Main, [ApiKeyField]),
    SectionFields(Basics, [AllowMapControlsField, MarkerIconEnabledField, MapStyleEnabledField]),
    SectionFields(Layout, [CustomMapFormatField])
  ]

  /** The values the host persists for one block; `None` is a value never set. */
  datatype Values = Values(
    apiKey: Option<string>,
    allowMapControls: bool,
    markerIconEnabled: bool,
    markerIcon: Option<string>,
    mapStyleEnabled: bool,
    mapStyle: Option<string>,
    customMapFormat: bool,
    fixedHeight: Option<string>,
    formatPreset: Option<string>)

  function TextValue(o: Option<string>): Option<Value>
  {
    if o.Some? then Some(Text(o.value)) else None
  }

  /** The stored value of field `id`, in the schema's terms. */
  function ValueOf(v: Values, id: FieldId): Option<Value>
  {
    match id
    case ApiKey => TextValue(v.apiKey)
    case AllowMapControls => Some(Flag(v.allowMapControls))
    case MarkerIconEnabled => Some(Flag(v.markerIconEnabled))
    case MarkerIcon => TextValue(v.markerIcon)
    case MapStyleEnabled => Some(Flag(v.mapStyleEnabled))
    case MapStyle => TextValue(v.mapStyle)
    case CustomMapFormat => Some(Flag(v.customMapFormat))
    case FixedHeight => TextValue(v.fixedHeight)
    case FormatPreset => TextValue(v.formatPreset)
  }

  /** A switch is on when its stored value is the flag `true`. */
  predicate SwitchOn(v: Values, id: FieldId)
  {
    ValueOf(v, id) == Some(Flag(true))
  }

  // ---------------------------------------------------------------------------
  // Visibility of conditional fields.
  // ---------------------------------------------------------------------------

  /**
   * Whether field `f` shows field `id`: it is `id` itself, or it is a switch
   * and `id` is shown among its `on` children while it is on, or among its
   * `off` children while it is off.
   */
  function ShownBy(f: Field, id: FieldId, v: Values): bool
    decreases f, 1
  {
    || f.id == id
    || (f.kind == Switch && SwitchOn(v, f.id) && VisibleIn(f.on, id, v))
    || (f.kind == Switch && !SwitchOn(v, f.id) && VisibleIn(f.off, id, v))
  }

  /** Whether some field of `fields` shows field `id`. */
  function VisibleIn(fields: seq<Field>, id: FieldId, v: Values): bool
    decreases fields, 0
  {
    if fields == [] then false
    else ShownBy(fields[0], id, v) || VisibleIn(fields[1..], id, v)
  }

  function VisibleInSections(sections: seq<SectionFields>, id: FieldId, v: Values): bool
  {
    if sections == [] then false
    else VisibleIn(sections[0].fields, id, v) || VisibleInSections(sections[1..], id, v)
  }

  /** Whether the settings panel shows field `id` for the stored values `v`. */
  function Visible(id: FieldId, v: Values): bool
  {
    VisibleInSections(Schema, id, v)
  }

  lemma VisibleInOne(a: Field, id: FieldId, v: Values)
    ensures VisibleIn([a], id, v) == ShownBy(a, id, v)
  {
    assert [a][1..] == [];
  }

  lemma VisibleInThree(a: Field, b: Field, c: Field, id: FieldId, v: Values)
    ensures VisibleIn([a, b, c], id, v) == (ShownBy(a, id, v) || ShownBy(b, id, v) || ShownBy(c, id, v))
  {
    assert [a, b, c][1..] == [b, c];
    assert [b, c][1..] == [c];
    VisibleInOne(c, id, v);
  }

  lemma VisibleInSectionsThree(x: SectionFields, y: SectionFields, z: SectionFields, id: FieldId, v: Values)
    ensures VisibleInSections([x, y, z], id, v) ==
      (VisibleIn(x.fields, id, v) || VisibleIn(y.fields, id, v) || VisibleIn(z.fields, id, v))
  {
    assert [x, y, z][1..] == [y, z];
    assert [y, z][1..] == [z];
    assert [z][1..] == [];
    assert VisibleInSections([z], id, v) == VisibleIn(z.fields, id, v);
    assert VisibleInSections([y, z], id, v) == (VisibleIn(y.fields, id, v) || VisibleIn(z.fields, id, v));
  }

  /** The switch that field `id` hangs under and the branch it hangs in, if any. */
  function Parent(id: FieldId): Option<(FieldId, bool)>
  {
    match id
    case MarkerIcon => Some((MarkerIconEnabled, true))
    case MapStyle => Some((MapStyleEnabled, true))
    case FixedHeight => Some((CustomMapFormat, true))
    case FormatPreset => Some((CustomMapFormat, false))
    case _ => None
  }

  lemma BasicsVisibility(id: FieldId, v: Values)
    ensures VisibleIn(Schema[1].fields, id, v) <==>
      || id == AllowMapControls
      || id == MarkerIconEnabled || (v.markerIconEnabled && id == MarkerIcon)
      || id == MapStyleEnabled || (v.mapStyleEnabled && id == MapStyle)
  {
    VisibleInThree(AllowMapControlsField, MarkerIconEnabledField, MapStyleEnabledField, id, v);
    VisibleInOne(MarkerIconField, id, v);
    VisibleInOne(MapStyleField, id, v);
  }

  lemma LayoutVisibility(id: FieldId, v: Values)
    ensures VisibleIn(Schema[2].fields, id, v) <==>
      || id == CustomMapFormat
      || (v.customMapFormat && id == FixedHeight)
      || (!v.customMapFormat && id == FormatPreset)
  {
    VisibleInOne(CustomMapFormatField, id, v);
    VisibleInOne(FixedHeightField, id, v);
    VisibleInOne(FormatPresetField, id, v);
  }

  /**
   * A field is visible exactly when it hangs under no switch, or its switch is
   * in the state of the branch (`on` or `off`) the field is declared in.
   */
  lemma VisibleByParent(id: FieldId, v: Values)
    ensures Visible(id, v) <==>
      (Parent(id).None? || SwitchOn(v, Parent(id).value.0) == Parent(id).value.1)
  {
    VisibleInSectionsThree(Schema[0], Schema[1], Schema[2], id, v);
    VisibleInOne(ApiKeyField, id, v);
    BasicsVisibility(id, v);
    LayoutVisibility(id, v);
  }

  /** The fixed-height input shows exactly when the custom format switch is on. */
  lemma FixedHeightVisibility(v: Values)
    ensures Visible(FixedHeight, v) <==> v.customMapFormat
    ensures Visible(FormatPreset, v) <==> !v.customMapFormat
    ensures !(Visible(FixedHeight, v) && Visible(FormatPreset, v))
  {
    VisibleByParent(FixedHeight, v);
    VisibleByParent(FormatPreset, v);
  }

  /** The marker icon and map style fields show exactly when their switches are on. */
  lemma SwitchedFieldVisibility(v: Values)
    ensures Visible(MarkerIcon, v) <==> v.markerIconEnabled
    ensures Visible(MapStyle, v) <==> v.mapStyleEnabled
  {
    VisibleByParent(MarkerIcon, v);
    VisibleByParent(MapStyle, v);
  }

  /** The fields outside any switch branch are shown for every setting of the switches. */
  lemma TopLevelAlwaysVisible(v: Values)
    ensures Visible(ApiKey, v) && Visible(AllowMapControls, v)
    ensures Visible(MarkerIconEnabled, v) && Visible(MapStyleEnabled, v)
    ensures Visible(CustomMapFormat, v)
  {
    VisibleByParent(ApiKey, v);
    VisibleByParent(AllowMapControls, v);
    VisibleByParent(MarkerIconEnabled, v);
    VisibleByParent(MapStyleEnabled, v);
    VisibleByParent(CustomMapFormat, v);
  }

  // ---------------------------------------------------------------------------
  // Field lookup, defaults and validation.
  // ---------------------------------------------------------------------------

  function OrElse(a: Option<Field>, b: Option<Field>): Option<Field>
  {
    if a.Some? then a else b
  }

  /** The first declaration of `id` in `f` or its children, searched depth first. */
  function FindInField(f: Field, id: FieldId): (r: Option<Field>)
    ensures r.Some? ==> r.value.id == id
    decreases f, 1
  {
    if f.id == id then Some(f) else OrElse(FindIn(f.on, id), FindIn(f.off, id))
  }

  function FindIn(fields: seq<Field>, id: FieldId): (r: Option<Field>)
    ensures r.Some? ==> r.value.id == id
    decreases fields, 0
  {
    if fields == [] then None else OrElse(FindInField(fields[0], id), FindIn(fields[1..], id))
  }

  function FindInSections(sections: seq<SectionFields>, id: FieldId): (r: Option<Field>)
    ensures r.Some? ==> r.value.id == id
  {
    if sections == [] then None
    else OrElse(FindIn(sections[0].fields, id), FindInSections(sections[1..], id))
  }

  /** The declaration of field `id` in the schema, if it has one; what it finds is a field with that id. */
  function Lookup(id: FieldId): (r: Option<Field>)
    ensures r.Some? ==> r.value.id == id
  {
    FindInSections(Schema, id)
  }

  lemma FindInOne(a: Field, id: FieldId)
    ensures FindIn([a], id) == FindInField(a, id)
  {
    assert [a][1..] == [];
  }

  lemma FindInThree(a: Field, b: Field, c: Field, id: FieldId)
    ensures FindIn([a, b, c], id) == OrElse(FindInField(a, id), OrElse(FindInField(b, id), FindInField(c, id)))
  {
    assert [a, b, c][1..] == [b, c];
    assert [b, c][1..] == [c];
    FindInOne(c, id);
  }

  lemma FindInSectionsThree(x: SectionFields, y: SectionFields, z: SectionFields, id: FieldId)
    ensures FindInSections([x, y, z], id) ==
      OrElse(FindIn(x.fields, id), OrElse(FindIn(y.fields, id), FindIn(z.fields, id)))
  {
    assert [x, y, z][1..] == [y, z];
    assert [y, z][1..] == [z];
    assert [z][1..] == [];
    assert FindInSections([z], id) == FindIn(z.fields, id);
    assert FindInSections([y, z], id) == OrElse(FindIn(y.fields, id), FindIn(z.fields, id));
  }

  /** The field declared for each id. */
  function Declaration(id: FieldId): (f: Field)
    ensures f.id == id
  {
    match id
    case ApiKey => ApiKeyField
    case AllowMapControls => AllowMapControlsField
    case MarkerIconEnabled => MarkerIconEnabledField
    case MarkerIcon => MarkerIconField
    case MapStyleEnabled => MapStyleEnabledField
    case MapStyle => MapStyleField
    case CustomMapFormat => CustomMapFormatField
    case FixedHeight => FixedHeightField
    case FormatPreset => FormatPresetField
  }

  /** Every field id is declared in the schema, and the search finds its declaration. */
  lemma LookupFindsDeclaration(id: FieldId)
    ensures Lookup(id) == Some(Declaration(id))
  {
    FindInSectionsThree(Schema[0], Schema[1], Schema[2], id);
    FindInOne(ApiKeyField, id);
    FindInThree(AllowMapControlsField, MarkerIconEnabledField, MapStyleEnabledField, id);
    FindInOne(CustomMapFormatField, id);
    FindInOne(MarkerIconField, id);
    FindInOne(MapStyleField, id);
    FindInOne(FixedHeightField, id);
    FindInOne(FormatPresetField, id);
  }

  /** The default value the schema declares for field `id`, if any. */
  function DefaultOf(id: FieldId): Option<Value>
  {
    var f := Lookup(id);
    if f.Some? then f.value.defaultValue else None
  }

  /** The values a newly inserted block starts with. */
  function Defaults(): Values
  {
    Values(
      apiKey := Some(""),
      allowMapControls := true,
      markerIconEnabled := false,
      markerIcon := None,
      mapStyleEnabled := false,
      mapStyle := Some("[]"),
      customMapFormat := false,
      fixedHeight := None,
      formatPreset := Some("16to9"))
  }

  /**
   * The flat default record agrees, field by field, with the defaults the
   * schema declares: `apiKey` is empty, `allowMapControls` is on, the three
   * other switches are off, `mapStyle` is "[]", `formatPreset` is "16to9",
   * and `markerIcon` and `fixedHeight` have none.
   */
  lemma DefaultsMatchSchema(id: FieldId)
    ensures ValueOf(Defaults(), id) == DefaultOf(id)
  {
    LookupFindsDeclaration(id);
  }

  /**
   * The default aspect ratio is one of the slider's three declared choices,
   * and with the default values the aspect-ratio slider is the visible layout
   * field while the marker icon and map style fields are hidden.
   */
  lemma DefaultLayout()
    ensures Lookup(FormatPreset).Some?
    ensures Lookup(FormatPreset).value.choices == ["16to9", "4to3", "1to1"]
    ensures Defaults().formatPreset.Some?
    ensures Defaults().formatPreset.value in Lookup(FormatPreset).value.choices
    ensures Visible(FormatPreset, Defaults()) && !Visible(FixedHeight, Defaults())
    ensures !Visible(MarkerIcon, Defaults()) && !Visible(MapStyle, Defaults())
  {
    LookupFindsDeclaration(FormatPreset);
    FixedHeightVisibility(Defaults());
    SwitchedFieldVisibility(Defaults());
  }

  /**
   * Whether `value` passes `rule`. The JSON rule asks whether the host's JSON
   * parser accepts the text; that parser is the parameter `parses`.
   */
  function Validate(rule: Rule, value: string, parses: string -> bool): (r: bool)
    ensures rule == HeightPattern ==> (r <==> InHeightLanguage(value))
    ensures rule == ValidJson ==> (r <==> parses(value))
  {
    MatchFixedHeightIff(value);
    match rule
    case HeightPattern => MatchFixedHeight(value)
    case ValidJson => parses(value)
  }

  /**
   * Whether `value` passes every rule the schema attaches to field `id`: the
   * rules found by searching the tree are those of the field's declaration.
   */
  function FieldValid(id: FieldId, value: string, parses: string -> bool): (r: bool)
    ensures r <==> forall i | 0 <= i < |Declaration(id).rules| :: Validate(Declaration(id).rules[i], value, parses)
  {
    LookupFindsDeclaration(id);
    var f := Lookup(id);
    f.None? || forall i | 0 <= i < |f.value.rules| :: Validate(f.value.rules[i], value, parses)
  }

  /** The fixed-height field accepts exactly the strings of the pattern's language. */
  lemma FixedHeightFieldRule(value: string, parses: string -> bool)
    ensures FieldValid(FixedHeight, value, parses) <==> InHeightLanguage(value)
  {
    LookupFindsDeclaration(FixedHeight);
    var rules := Lookup(FixedHeight).value.rules;
    assert rules == [HeightPattern];
    assert FieldValid(FixedHeight, value, parses) == Validate(rules[0], value, parses);
  }

  /** The map style field's only rule is the JSON parser's verdict. */
  lemma MapStyleFieldRule(value: string, parses: string -> bool)
    ensures FieldValid(MapStyle, value, parses) <==> parses(value)
  {
    LookupFindsDeclaration(MapStyle);
    var rules := Lookup(MapStyle).value.rules;
    assert rules == [ValidJson];
    assert FieldValid(MapStyle, value, parses) == Validate(rules[0], value, parses);
  }

  /** The other fields carry no rules: every value passes. */
  lemma UnruledFields(id: FieldId, value: string, parses: string -> bool)
    requires id != FixedHeight && id != MapStyle
    ensures FieldValid(id, value, parses)
  {
    LookupFindsDeclaration(id);
    assert Lookup(id).value.rules == [];
  }
}
