/**
 * The left-action resolver of menu/cbs/menu_cbs_left.c: given one menu row,
 * pick the single handler a "left" input on that row runs.
 *
 * Three stages, first match wins: the no-item sentinel, the label rules
 * (`menu_cbs_init_bind_left_compare_label`), the type rules
 * (`menu_cbs_init_bind_left_compare_type`). `None` means no rule matched, in
 * which case the slot keeps `bind_left_generic`, bound before any rule runs.
 *
 * `RuleTable` restates the three stages as one flat, ordered list of
 * (condition, handler) rules; `ResolveIsFirstMatchingRule` proves the nested
 * code and the flat table agree on every row.
 */
module LeftResolver {
  import opened MenuTypes

  /** The ten list-browsing tabs of the no-item sentinel check. */
  const SentinelTabs: set<MenuLabel> :=
    {HistoryTab, PlaylistsTab, AddTab, NetplayTab, MainMenu,
     MusicTab, ImagesTab, VideoTab, HorizontalMenu, SettingsTab}

  /** The seven tabs of the NO_ITEMS check: no add, netplay or settings tab. */
  const NoItemsTabs: set<MenuLabel> :=
    {HistoryTab, MainMenu, PlaylistsTab, MusicTab, ImagesTab, VideoTab, HorizontalMenu}

  /** The nine tabs of the screenshot and browsable-file checks: no main menu. */
  const BrowserTabs: set<MenuLabel> :=
    {HistoryTab, PlaylistsTab, AddTab, NetplayTab, MusicTab,
     ImagesTab, VideoTab, HorizontalMenu, SettingsTab}

  // ---------------------------------------------------------------------------
  // The joypad-index label

  function DigitChar(d: nat): char
    requires d < 10
  {
    "0123456789"[d]
  }

  /** `%d` of a non-negative number. */
  function Decimal(n: nat): (s: string)
    ensures |s| > 0
    decreases n
  {
    if n < 10 then [DigitChar(n)] else Decimal(n / 10) + [DigitChar(n % 10)]
  }

  /** The text `snprintf` builds for user `n`: `input_player<n>_joypad_index`. */
  function JoypadIndexLabel(n: nat): (s: string)
    ensures Contains(s, "input_player") && Contains(s, "_joypad_index")
  {
    var s := "input_player" + Decimal(n) + "_joypad_index";
    ContainsFactor("", "input_player", Decimal(n) + "_joypad_index");
    assert "" + "input_player" + (Decimal(n) + "_joypad_index") == s;
    ContainsFactor("input_player" + Decimal(n), "_joypad_index", "");
    assert "input_player" + Decimal(n) + "_joypad_index" + "" == s;
    s
  }

  /** The hash of user slot `i`'s joypad-index label (the slot is printed 1-based). */
  function JoypadHash(cfg: Config, i: nat): uint32 {
    cfg.labelHash(JoypadIndexLabel(i + 1))
  }

  /** Some user slot below `MAX_USERS` has a joypad-index label hashing to `h`. */
  predicate JoypadHashMatches(cfg: Config, h: uint32) {
    exists i :: 0 <= i < cfg.maxUsers && JoypadHash(cfg, i) == h
  }

  /** The second label rule: the label names a joypad index and its hash is one of the users'. */
  predicate IsJoypadIndexEntry(cfg: Config, d: Descriptor) {
    Contains(d.entryLabel, "input_player") && Contains(d.entryLabel, "_joypad_index")
    && JoypadHashMatches(cfg, d.labelHash)
  }

  /**
   * The loop of the second label rule: try each user slot in turn and stop at
   * the first whose label hash equals the row's.
   */
  method FindJoypadUser(cfg: Config, labelHash: uint32) returns (found: bool, user: nat)
    ensures found <==> JoypadHashMatches(cfg, labelHash)
    ensures found ==> user < cfg.maxUsers && JoypadHash(cfg, user) == labelHash
    ensures found ==> forall j :: 0 <= j < user ==> JoypadHash(cfg, j) != labelHash
  {
    var i := 0;
    while i < cfg.maxUsers
      invariant 0 <= i <= cfg.maxUsers
      invariant forall j :: 0 <= j < i ==> JoypadHash(cfg, j) != labelHash
    {
      var labelSettingHash := cfg.labelHash(JoypadIndexLabel(i + 1));
      if labelHash != labelSettingHash {
        i := i + 1;
        continue;
      }
      assert JoypadHash(cfg, i) == labelHash;
      return true, i;
    }
    return false, 0;
  }

  // ---------------------------------------------------------------------------
  // The three stages

  predicate IsMainMenuGroup(s: Option<BoundSetting>) {
    s.Some? && s.value.parentGroup == MainMenu && s.value.kind == StGroup
  }

  /** Stage 0: a no-item row in one of the ten list-browsing tabs. */
  predicate IsSentinelRow(cfg: Config, d: Descriptor) {
    d.entryType == cfg.codes.settingNoItem && d.menuLabel in SentinelTabs
  }

  /** The handlers the label stage can bind. */
  const LabelHandlers: set<Handler> :=
    {ActionLeftMainmenu, BindLeftGeneric, ActionLeftScroll, ActionLeftShaderScalePass,
     ActionLeftShaderFilterPass, ActionLeftShaderFilterDefault, ActionLeftShaderNumPasses,
     ActionLeftCheatNumPasses, ActionLeftVideoResolution}

  /** The handlers the type stage can bind. */
  const TypeHandlers: set<Handler> :=
    {ActionLeftCheat, ShaderActionParameterLeft, ShaderActionParameterPresetLeft,
     ActionLeftInputDesc, PlaylistAssociationLeft, CoreSettingLeft, DiskOptionsDiskIdxLeft,
     ActionLeftMainmenu, ActionLeftScroll}

  /** The enum switch of the label stage (`None` is its `default: return -1`). */
  function CompareEnum(e: MenuEnum, tab: MenuLabel): (r: Option<Handler>)
    ensures r.Some? ==> r.value in LabelHandlers - {BindLeftGeneric}
    ensures e == MsgUnknown || e.OtherEnum? ==> r == None
    ensures (e == StartVideoProcessor || e == TakeScreenshot) ==>
              (r.Some? <==> tab in BrowserTabs)
  {
    match e
    case ConnectNetplayRoom => Some(ActionLeftMainmenu)
    case VideoShaderScalePass => Some(ActionLeftShaderScalePass)
    case VideoShaderFilterPass => Some(ActionLeftShaderFilterPass)
    case VideoShaderDefaultFilter => Some(ActionLeftShaderFilterDefault)
    case VideoShaderNumPasses => Some(ActionLeftShaderNumPasses)
    case CheatNumPasses => Some(ActionLeftCheatNumPasses)
    case ScreenResolution => Some(ActionLeftVideoResolution)
    case OpenArchiveDetectCore => Some(ActionLeftScroll)
    case LoadArchiveDetectCore => Some(ActionLeftScroll)
    case NoItems =>
      if tab in NoItemsTabs then Some(ActionLeftMainmenu) else Some(ActionLeftScroll)
    case NoPlaylistEntriesAvailable =>
      if tab in NoItemsTabs then Some(ActionLeftMainmenu) else Some(ActionLeftScroll)
    case StartVideoProcessor =>
      if tab in BrowserTabs then Some(ActionLeftMainmenu) else None
    case TakeScreenshot =>
      if tab in BrowserTabs then Some(ActionLeftMainmenu) else None
    case MsgUnknown => None
    case OtherEnum(_) => None
  }

  /** Stage 1, `menu_cbs_init_bind_left_compare_label`: `None` is its `-1`. */
  function CompareLabel(cfg: Config, d: Descriptor): (r: Option<Handler>)
    ensures r.Some? ==> r.value in LabelHandlers
    ensures r == Some(BindLeftGeneric) <==> !IsMainMenuGroup(d.setting) && IsJoypadIndexEntry(cfg, d)
    ensures d.menuLabel == PlaylistsTab ==> r.Some?
    ensures Contains(d.entryLabel, "rdb_entry") ==> r.Some?
  {
    if IsMainMenuGroup(d.setting) then Some(ActionLeftMainmenu)
    else if Contains(d.entryLabel, "input_player") && Contains(d.entryLabel, "_joypad_index")
         && JoypadHashMatches(cfg, d.labelHash) then Some(BindLeftGeneric)
    else if d.menuLabel == PlaylistsTab then Some(ActionLeftMainmenu)
    else if Contains(d.entryLabel, "rdb_entry") then Some(ActionLeftScroll)
    else CompareEnum(d.enumIdx, d.menuLabel)
  }

  /** The exact-type switch at the end of the type stage. */
  function CompareExactType(codes: TypeCodes, t: uint32, tab: MenuLabel): (r: Option<Handler>)
    ensures r.Some? <==> t == codes.diskIndex || t in codes.browsable || t in codes.collapse
    ensures codes.WellFormed() && t in codes.collapse ==> r == Some(ActionLeftMainmenu)
    ensures codes.WellFormed() && t in codes.browsable ==>
              r == Some(if tab in BrowserTabs then ActionLeftMainmenu else ActionLeftScroll)
  {
    if t == codes.diskIndex then Some(DiskOptionsDiskIdxLeft)
    else if t in codes.browsable then
      assert t in codes.collapse ==> t in codes.browsable * codes.collapse;
      (if tab in BrowserTabs then Some(ActionLeftMainmenu) else Some(ActionLeftScroll))
    else if t in codes.collapse then Some(ActionLeftMainmenu)
    else None
  }

  /** Stage 2, `menu_cbs_init_bind_left_compare_type`: `None` is its `-1`. */
  function CompareType(cfg: Config, t: uint32, tab: MenuLabel): (r: Option<Handler>)
    ensures r.Some? ==> r.value in TypeHandlers
    ensures t >= cfg.codes.playlistAssociationStart ==> r.Some?
    ensures (r == Some(ShaderActionParameterLeft) || r == Some(ShaderActionParameterPresetLeft))
              ==> cfg.haveShaderManager
  {
    var c := cfg.codes;
    if c.cheatBegin <= t <= c.cheatEnd then Some(ActionLeftCheat)
    else if cfg.haveShaderManager && c.shaderParameter0 <= t <= c.shaderParameterLast then
      Some(ShaderActionParameterLeft)
    else if cfg.haveShaderManager && c.shaderPresetParameter0 <= t <= c.shaderPresetParameterLast then
      Some(ShaderActionParameterPresetLeft)
    else if c.inputDescBegin <= t <= c.inputDescEnd then Some(ActionLeftInputDesc)
    else if t >= c.playlistAssociationStart then Some(PlaylistAssociationLeft)
    else if t >= c.coreOptionStart then Some(CoreSettingLeft)
    else CompareExactType(c, t, tab)
  }

  /**
   * `menu_cbs_init_bind_left` on a non-null slot: the handler some rule binds,
   * or `None` when every rule fails (the call returns -1).
   */
  function Resolve(cfg: Config, d: Descriptor): (r: Option<Handler>)
    ensures r.Some? ==> r.value in LabelHandlers + TypeHandlers
    ensures IsSentinelRow(cfg, d) ==> r == Some(ActionLeftMainmenu)
    ensures !IsSentinelRow(cfg, d) && CompareLabel(cfg, d).Some? ==> r == CompareLabel(cfg, d)
    ensures r == None <==> !IsSentinelRow(cfg, d) && CompareLabel(cfg, d) == None
                            && CompareType(cfg, d.entryType, d.menuLabel) == None
  {
    if IsSentinelRow(cfg, d) then Some(ActionLeftMainmenu)
    else
      var byLabel := CompareLabel(cfg, d);
      if byLabel.Some? then byLabel
      else CompareType(cfg, d.entryType, d.menuLabel)
  }

  /**
   * No rule binds `bind_left_generic` except the joypad-index rule: a row gets
   * it from a rule exactly when it is a joypad-index row that neither the
   * sentinel nor the main-menu group rule claims first.
   */
  lemma GenericOnlyForJoypadRows(cfg: Config, d: Descriptor)
    ensures Resolve(cfg, d) == Some(BindLeftGeneric) <==>
              !IsSentinelRow(cfg, d) && !IsMainMenuGroup(d.setting) && IsJoypadIndexEntry(cfg, d)
  {
    assert BindLeftGeneric !in TypeHandlers;
  }

  /** Without the shader manager no row is bound to either shader-parameter handler. */
  lemma NoShaderManagerNoParameterHandlers(cfg: Config, d: Descriptor)
    requires !cfg.haveShaderManager
    ensures Resolve(cfg, d) != Some(ShaderActionParameterLeft)
    ensures Resolve(cfg, d) != Some(ShaderActionParameterPresetLeft)
  {
    assert ShaderActionParameterLeft !in LabelHandlers;
    assert ShaderActionParameterPresetLeft !in LabelHandlers;
  }

  /**
   * A "no items" row that reaches the enum switch collapses onto the tab bar
   * in the seven content tabs and pages up anywhere else.
   */
  lemma NoItemsRowRule(cfg: Config, d: Descriptor)
    requires d.enumIdx == NoItems || d.enumIdx == NoPlaylistEntriesAvailable
    requires !IsSentinelRow(cfg, d) && !IsMainMenuGroup(d.setting) && !IsJoypadIndexEntry(cfg, d)
    requires d.menuLabel != PlaylistsTab && !Contains(d.entryLabel, "rdb_entry")
    ensures Resolve(cfg, d) == Some(if d.menuLabel in NoItemsTabs then ActionLeftMainmenu else ActionLeftScroll)
  {
  }

  /**
   * A screenshot or video-processor row outside the nine browser tabs gets no
   * label handler (its switch case falls through to `default`), so its type
   * decides.
   */
  lemma ScreenshotOutsideBrowserFallsThrough(cfg: Config, d: Descriptor)
    requires d.enumIdx == TakeScreenshot || d.enumIdx == StartVideoProcessor
    requires d.menuLabel !in BrowserTabs
    requires !IsSentinelRow(cfg, d) && !IsMainMenuGroup(d.setting) && !IsJoypadIndexEntry(cfg, d)
    requires !Contains(d.entryLabel, "rdb_entry")
    ensures Resolve(cfg, d) == CompareType(cfg, d.entryType, d.menuLabel)
  {
  }

  // ---------------------------------------------------------------------------
  // Worked examples

  /** Type codes for the examples: distinct switch cases, ranges apart. */
  function ExampleCodes(): TypeCodes {
    TypeCodes(settingNoItem := 1,
              cheatBegin := 100, cheatEnd := 199,
              shaderParameter0 := 200, shaderParameterLast := 299,
              shaderPresetParameter0 := 300, shaderPresetParameterLast := 399,
              inputDescBegin := 400, inputDescEnd := 499,
              playlistAssociationStart := 2000,
              coreOptionStart := 1000,
              diskIndex := 10,
              browsable := {20, 21},
              collapse := {30},
              shaderPassScale0 := 50,
              shaderPassFilter0 := 60)
  }

  /**
   * A build with `shader` as its shader-manager switch and two users, whose
   * label hash is the code of the label's thirteenth character (the user
   * digit of a joypad-index label), so the two users' labels hash apart.
   */
  function ExampleConfig(shader: bool): Config {
    Config(shader, 2, 20,
           (s: string) => if |s| > 12 then (s[12] as int % U32_MODULUS) as uint32 else 0,
           ExampleCodes(), (sel: nat) => 0)
  }

  /** A row with no bound setting, an unrelated label hashing to 0, in list `tab`. */
  function ExampleRow(tab: MenuLabel, e: MenuEnum, t: uint32): Descriptor {
    Descriptor("", "", 0, t, 0, tab, e, None)
  }

  /** No-item rows: the sentinel in a tab, the enum switch elsewhere. */
  lemma NoItemsExamples()
    ensures Resolve(ExampleConfig(true), ExampleRow(HistoryTab, NoItems, 1)) == Some(ActionLeftMainmenu)
    ensures Resolve(ExampleConfig(true), ExampleRow(OtherLabel("core_list"), NoItems, 1)) == Some(ActionLeftScroll)
  {
    assert !Contains("", "rdb_entry");
    assert !Contains("", "input_player");
  }

  /** A screenshot row in the main menu falls through to its type, which no rule names. */
  lemma ScreenshotExample()
    ensures Resolve(ExampleConfig(true), ExampleRow(MainMenu, TakeScreenshot, 5)) == None
  {
    assert !Contains("", "rdb_entry");
    assert !Contains("", "input_player");
  }

  /** A browsable file collapses onto the tab bar in a tab and pages up in the main menu. */
  lemma BrowsableExamples()
    ensures Resolve(ExampleConfig(true), ExampleRow(MusicTab, OtherEnum(0), 20)) == Some(ActionLeftMainmenu)
    ensures Resolve(ExampleConfig(true), ExampleRow(MainMenu, OtherEnum(0), 20)) == Some(ActionLeftScroll)
  {
    assert !Contains("", "rdb_entry");
    assert !Contains("", "input_player");
  }

  /**
   * A shader-parameter row needs the shader manager; of the two open-ended
   * ranges the playlist one is tested first.
   */
  lemma TypeRangeExamples()
    ensures Resolve(ExampleConfig(true), ExampleRow(MainMenu, OtherEnum(0), 250)) == Some(ShaderActionParameterLeft)
    ensures Resolve(ExampleConfig(false), ExampleRow(MainMenu, OtherEnum(0), 250)) == None
    ensures Resolve(ExampleConfig(true), ExampleRow(MainMenu, OtherEnum(0), 1500)) == Some(CoreSettingLeft)
    ensures Resolve(ExampleConfig(true), ExampleRow(MainMenu, OtherEnum(0), 2500)) == Some(PlaylistAssociationLeft)
  {
    assert !Contains("", "rdb_entry");
    assert !Contains("", "input_player");
  }

  /**
   * User 2's joypad-index row, in the input-description range, keeps the
   * generic handler: its hash misses user slot 0 and matches slot 1. A row
   * with the same label but a hash no slot has is no joypad-index row.
   */
  lemma JoypadExample()
    ensures Resolve(ExampleConfig(true),
                    ExampleRow(MainMenu, OtherEnum(0), 400).(entryLabel := JoypadIndexLabel(2), labelHash := '2' as uint32))
            == Some(BindLeftGeneric)
    ensures !IsJoypadIndexEntry(ExampleConfig(true),
                                ExampleRow(MainMenu, OtherEnum(0), 400).(entryLabel := JoypadIndexLabel(2), labelHash := '3' as uint32))
  {
    var cfg := ExampleConfig(true);
    assert JoypadIndexLabel(1)[12] == '1';
    assert JoypadIndexLabel(2)[12] == '2';
    assert JoypadHash(cfg, 0) != '2' as uint32;
    assert JoypadHash(cfg, 1) == '2' as uint32;
    var joy := ExampleRow(MainMenu, OtherEnum(0), 400).(entryLabel := JoypadIndexLabel(2), labelHash := '2' as uint32);
    assert IsJoypadIndexEntry(cfg, joy);
    assert !JoypadHashMatches(cfg, '3' as uint32);
  }

  // ---------------------------------------------------------------------------
  // The same rules as one ordered table

  /** One row of the rule table: whether its condition holds of the row, and what it binds. */
  datatype Rule = Rule(fires: bool, handler: Handler)

  /** The position of the first rule that fires, `|rules|` when none does. */
  function FirstFiring(rules: seq<Rule>): (k: nat)
    ensures k <= |rules|
    ensures k < |rules| ==> rules[k].fires
    ensures forall j :: 0 <= j < k ==> !rules[j].fires
  {
    if rules == [] then 0
    else if rules[0].fires then 0
    else
      var k := FirstFiring(rules[1..]);
      assert forall j :: 1 <= j < |rules| ==> rules[j] == rules[1..][j - 1];
      k + 1
  }

  /** The handler of the first rule that fires, `None` when none does. */
  function FirstMatch(rules: seq<Rule>): (r: Option<Handler>)
    ensures r.Some? <==> exists i :: 0 <= i < |rules| && rules[i].fires
  {
    var k := FirstFiring(rules);
    if k < |rules| then Some(rules[k].handler) else None
  }

  /** A position where a rule fires and no earlier one does is the first firing one. */
  lemma FirstFiringAt(rules: seq<Rule>, k: nat)
    requires k <= |rules|
    requires k < |rules| ==> rules[k].fires
    requires forall j :: 0 <= j < k ==> !rules[j].fires
    ensures FirstFiring(rules) == k
  {
  }

  /** In a table made of two parts every rule of the first part outranks every rule of the second. */
  lemma FirstMatchAppend(a: seq<Rule>, b: seq<Rule>)
    ensures FirstMatch(a + b) == if FirstMatch(a).Some? then FirstMatch(a) else FirstMatch(b)
  {
    var ka, kb := FirstFiring(a), FirstFiring(b);
    if ka < |a| {
      FirstFiringAt(a + b, ka);
    } else {
      assert forall j :: 0 <= j < |a| ==> !(a + b)[j].fires;
      assert forall j :: |a| <= j < |a| + kb ==> (a + b)[j] == b[j - |a|];
      FirstFiringAt(a + b, |a| + kb);
    }
  }

  /** Stage 0 as a table. */
  function SentinelRules(cfg: Config, d: Descriptor): seq<Rule> {
    [Rule(d.entryType == cfg.codes.settingNoItem && d.menuLabel in SentinelTabs, ActionLeftMainmenu)]
  }

  /** The four rules of stage 1 before the enum switch, in source order. */
  function LabelHeadRules(cfg: Config, d: Descriptor): seq<Rule> {
    [ Rule(IsMainMenuGroup(d.setting), ActionLeftMainmenu),
      Rule(IsJoypadIndexEntry(cfg, d), BindLeftGeneric),
      Rule(d.menuLabel == PlaylistsTab, ActionLeftMainmenu),
      Rule(Contains(d.entryLabel, "rdb_entry"), ActionLeftScroll) ]
  }

  /** The cases of the enum switch whose handler is fixed. */
  function FixedEnumRules(e: MenuEnum): seq<Rule> {
    [ Rule(e == ConnectNetplayRoom, ActionLeftMainmenu),
      Rule(e == VideoShaderScalePass, ActionLeftShaderScalePass),
      Rule(e == VideoShaderFilterPass, ActionLeftShaderFilterPass),
      Rule(e == VideoShaderDefaultFilter, ActionLeftShaderFilterDefault),
      Rule(e == VideoShaderNumPasses, ActionLeftShaderNumPasses),
      Rule(e == CheatNumPasses, ActionLeftCheatNumPasses),
      Rule(e == ScreenResolution, ActionLeftVideoResolution),
      Rule(e == OpenArchiveDetectCore || e == LoadArchiveDetectCore, ActionLeftScroll) ]
  }

  /**
   * The cases of the enum switch that look at the owning list; a screenshot
   * row outside the browser tabs matches none (its case falls through to
   * `default`).
   */
  function TabEnumRules(e: MenuEnum, tab: MenuLabel): seq<Rule> {
    [ Rule((e == NoItems || e == NoPlaylistEntriesAvailable) && tab in NoItemsTabs, ActionLeftMainmenu),
      Rule(e == NoItems || e == NoPlaylistEntriesAvailable, ActionLeftScroll),
      Rule((e == StartVideoProcessor || e == TakeScreenshot) && tab in BrowserTabs, ActionLeftMainmenu) ]
  }

  /** The enum switch as a table. */
  function EnumRules(e: MenuEnum, tab: MenuLabel): seq<Rule> {
    FixedEnumRules(e) + TabEnumRules(e, tab)
  }

  /** Stage 1 as a table, in source order. */
  function LabelRules(cfg: Config, d: Descriptor): seq<Rule> {
    LabelHeadRules(cfg, d) + EnumRules(d.enumIdx, d.menuLabel)
  }

  /** Stage 2 as a table, in source order. */
  function TypeRules(cfg: Config, d: Descriptor): seq<Rule> {
    var c, t, tab := cfg.codes, d.entryType, d.menuLabel;
    [ Rule(c.cheatBegin <= t <= c.cheatEnd, ActionLeftCheat),
      Rule(cfg.haveShaderManager && c.shaderParameter0 <= t <= c.shaderParameterLast,
           ShaderActionParameterLeft),
      Rule(cfg.haveShaderManager && c.shaderPresetParameter0 <= t <= c.shaderPresetParameterLast,
           ShaderActionParameterPresetLeft),
      Rule(c.inputDescBegin <= t <= c.inputDescEnd, ActionLeftInputDesc),
      Rule(t >= c.playlistAssociationStart, PlaylistAssociationLeft),
      Rule(t >= c.coreOptionStart, CoreSettingLeft),
      Rule(t == c.diskIndex, DiskOptionsDiskIdxLeft),
      Rule(t in c.browsable && tab in BrowserTabs, ActionLeftMainmenu),
      Rule(t in c.browsable, ActionLeftScroll),
      Rule(t in c.collapse, ActionLeftMainmenu) ]
  }

  /** All rules, highest priority first. */
  function RuleTable(cfg: Config, d: Descriptor): seq<Rule> {
    SentinelRules(cfg, d) + LabelRules(cfg, d) + TypeRules(cfg, d)
  }

  /** The position, in `LabelHeadRules`, of the first rule that fires. */
  function LabelHeadRuleIndex(cfg: Config, d: Descriptor): nat {
    if IsMainMenuGroup(d.setting) then 0
    else if IsJoypadIndexEntry(cfg, d) then 1
    else if d.menuLabel == PlaylistsTab then 2
    else if Contains(d.entryLabel, "rdb_entry") then 3
    else 4
  }

  /** The position, in `FixedEnumRules`, of the case the enum switch takes; 8 for the other cases. */
  function FixedEnumRuleIndex(e: MenuEnum): nat {
    match e
    case ConnectNetplayRoom => 0
    case VideoShaderScalePass => 1
    case VideoShaderFilterPass => 2
    case VideoShaderDefaultFilter => 3
    case VideoShaderNumPasses => 4
    case CheatNumPasses => 5
    case ScreenResolution => 6
    case OpenArchiveDetectCore => 7
    case LoadArchiveDetectCore => 7
    case _ => 8
  }

  /** The position, in `TabEnumRules`, of the rule that decides a tab-dependent case; 3 when none fires. */
  function TabEnumRuleIndex(e: MenuEnum, tab: MenuLabel): nat {
    if e == NoItems || e == NoPlaylistEntriesAvailable then (if tab in NoItemsTabs then 0 else 1)
    else if (e == StartVideoProcessor || e == TakeScreenshot) && tab in BrowserTabs then 2
    else 3
  }

  /** An enum with a fixed handler is decided by the first part of the table. */
  lemma FixedEnumCases(e: MenuEnum, tab: MenuLabel)
    requires FixedEnumRuleIndex(e) < 8
    ensures CompareEnum(e, tab) == FirstMatch(FixedEnumRules(e))
  {
    FirstFiringAt(FixedEnumRules(e), FixedEnumRuleIndex(e));
  }

  /** Any other enum fires no rule of the first part... */
  lemma NoFixedEnumCase(e: MenuEnum)
    requires FixedEnumRuleIndex(e) == 8
    ensures FirstMatch(FixedEnumRules(e)) == None
  {
    FirstFiringAt(FixedEnumRules(e), 8);
  }

  /** ...and is decided by the second. */
  lemma TabEnumCases(e: MenuEnum, tab: MenuLabel)
    requires FixedEnumRuleIndex(e) == 8
    ensures CompareEnum(e, tab) == FirstMatch(TabEnumRules(e, tab))
  {
    FirstFiringAt(TabEnumRules(e, tab), TabEnumRuleIndex(e, tab));
  }

  lemma EnumSwitchIsEnumRules(e: MenuEnum, tab: MenuLabel)
    ensures CompareEnum(e, tab) == FirstMatch(EnumRules(e, tab))
  {
    FirstMatchAppend(FixedEnumRules(e), TabEnumRules(e, tab));
    if FixedEnumRuleIndex(e) < 8 {
      FixedEnumCases(e, tab);
    } else {
      NoFixedEnumCase(e);
      TabEnumCases(e, tab);
    }
  }

  lemma LabelStageIsLabelRules(cfg: Config, d: Descriptor)
    ensures CompareLabel(cfg, d) == FirstMatch(LabelRules(cfg, d))
  {
    FirstFiringAt(LabelHeadRules(cfg, d), LabelHeadRuleIndex(cfg, d));
    EnumSwitchIsEnumRules(d.enumIdx, d.menuLabel);
    FirstMatchAppend(LabelHeadRules(cfg, d), EnumRules(d.enumIdx, d.menuLabel));
  }

  /** The position, in `TypeRules`, of the rule that decides the type stage. */
  function TypeRuleIndex(cfg: Config, d: Descriptor): nat {
    var c, t, tab := cfg.codes, d.entryType, d.menuLabel;
    if c.cheatBegin <= t <= c.cheatEnd then 0
    else if cfg.haveShaderManager && c.shaderParameter0 <= t <= c.shaderParameterLast then 1
    else if cfg.haveShaderManager && c.shaderPresetParameter0 <= t <= c.shaderPresetParameterLast then 2
    else if c.inputDescBegin <= t <= c.inputDescEnd then 3
    else if t >= c.playlistAssociationStart then 4
    else if t >= c.coreOptionStart then 5
    else if t == c.diskIndex then 6
    else if t in c.browsable then (if tab in BrowserTabs then 7 else 8)
    else if t in c.collapse then 9
    else 10
  }

  lemma TypeStageIsTypeRules(cfg: Config, d: Descriptor)
    ensures CompareType(cfg, d.entryType, d.menuLabel) == FirstMatch(TypeRules(cfg, d))
  {
    FirstFiringAt(TypeRules(cfg, d), TypeRuleIndex(cfg, d));
  }

  /**
   * The nested stages and the flat table agree on every row: `Resolve` binds
   * the handler of the highest-priority rule whose condition holds.
   */
  lemma ResolveIsFirstMatchingRule(cfg: Config, d: Descriptor)
    ensures Resolve(cfg, d) == FirstMatch(RuleTable(cfg, d))
  {
    FirstMatchAppend(SentinelRules(cfg, d), LabelRules(cfg, d));
    FirstMatchAppend(SentinelRules(cfg, d) + LabelRules(cfg, d), TypeRules(cfg, d));
    LabelStageIsLabelRules(cfg, d);
    TypeStageIsTypeRules(cfg, d);
  }

  // ---------------------------------------------------------------------------
  // The callback slot

  /** The part of `menu_file_list_cbs_t` the resolver writes. */
  class MenuFileListCbs {
    var actionLeft: Handler
    var actionLeftIdent: string

    /** `BIND_ACTION_LEFT(cbs, h)`: the handler and its name are written together. */
    method BindActionLeft(h: Handler)
      modifies this
      ensures actionLeft == h && actionLeftIdent == Ident(h)
    {
      actionLeft := h;
      actionLeftIdent := Ident(h);
    }
  }

  /**
   * `menu_cbs_init_bind_left`: -1 on a null slot; otherwise bind the default,
   * then let the stages overwrite it. Returns 0 when some rule bound a handler
   * and -1 when none did, the default then staying in the slot.
   */
  method InitBindLeft(cbs: MenuFileListCbs?, cfg: Config, d: Descriptor) returns (status: int)
    modifies cbs
    ensures cbs == null ==> status == -1
    ensures cbs != null ==> status == (if Resolve(cfg, d).Some? then 0 else -1)
    ensures cbs != null ==> cbs.actionLeft == Resolve(cfg, d).GetOr(BindLeftGeneric)
    ensures cbs != null ==> cbs.actionLeftIdent == Ident(cbs.actionLeft)
  {
    if cbs == null {
      return -1;
    }
    cbs.BindActionLeft(BindLeftGeneric);

    if d.entryType == cfg.codes.settingNoItem {
      if d.menuLabel in SentinelTabs {
        cbs.BindActionLeft(ActionLeftMainmenu);
        return 0;
      }
    }

    var byLabel := CompareLabel(cfg, d);
    if byLabel.Some? {
      cbs.BindActionLeft(byLabel.value);
      return 0;
    }

    var byType := CompareType(cfg, d.entryType, d.menuLabel);
    if byType.Some? {
      cbs.BindActionLeft(byType.value);
      return 0;
    }

    return -1;
  }
}
