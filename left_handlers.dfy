/**
 * The handlers the resolver binds (menu/cbs/menu_cbs_left.c), as methods on
 * one `Menu` context object that holds the state they read and update in
 * place: the navigation cursor, the menu lists, the settings store, the cheat
 * and shader managers and the core catalog. Calls into collaborators whose
 * code is elsewhere are appended, in order, to `effects`.
 *
 * Each handler's arithmetic is a function on values, with its properties
 * proved as lemmas; each method states its whole new state in terms of those
 * functions and the old state.
 */
module LeftHandlers {
  import opened MenuTypes
  import opened PlaylistAssociation

  // ---------------------------------------------------------------------------
  // Value-level specifications

  function Max(a: int, b: int): int {
    if a < b then b else a
  }

  /** `scroll_speed`: `(MAX(accel, 2) - 2) / 4 + 1`, cast to `unsigned`. */
  function ScrollSpeed(accel: nat): uint32 {
    (((Max(accel, 2) - 2) / 4 + 1) % U32_MODULUS) as uint32
  }

  /** `fast_scroll_speed`: `4 + 4 * scroll_speed` in `unsigned` arithmetic. */
  function FastScrollSpeed(accel: nat): uint32 {
    ((4 + 4 * ScrollSpeed(accel) as int) % U32_MODULUS) as uint32
  }

  /** The accelerations for which neither cast nor product of the page size wraps. */
  const ACCEL_BOUND: int := 0x8000_0000

  /**
   * For every acceleration below 2^31 (far beyond any the menu reaches) no
   * cast or product wraps: the page is at least 8 rows, grows by 4 rows for
   * every 4 steps of acceleration, and is 8 rows up to acceleration 5.
   */
  lemma FastScrollSpeedGrows(accel: nat)
    requires accel < ACCEL_BOUND
    ensures FastScrollSpeed(accel) as int == 4 + 4 * ((Max(accel, 2) - 2) / 4 + 1)
    ensures FastScrollSpeed(accel) >= 8
    ensures accel <= 5 ==> FastScrollSpeed(accel) == 8
    ensures accel >= 2 && accel + 4 < ACCEL_BOUND ==>
              FastScrollSpeed(accel + 4) as int == FastScrollSpeed(accel) as int + 4
  {
    var q := (Max(accel, 2) - 2) / 4;
    assert 0 <= q < ACCEL_BOUND / 4;
    assert ScrollSpeed(accel) as int == q + 1;
    assert 4 + 4 * (q + 1) < U32_MODULUS;
    if accel >= 2 && accel + 4 < ACCEL_BOUND {
      var q' := (Max(accel + 4, 2) - 2) / 4;
      assert q' == q + 1;
      assert 0 <= q' < ACCEL_BOUND / 4;
      assert ScrollSpeed(accel + 4) as int == q' + 1;
      assert 4 + 4 * (q' + 1) < U32_MODULUS;
    }
  }

  /**
   * The selection after one page up from `selection`, or `None` when the
   * cursor is within one page of the top and does not move.
   */
  function PageUp(selection: nat, accel: nat): (r: Option<nat>)
    ensures r.Some? <==> selection > FastScrollSpeed(accel) as int
    ensures r.Some? ==> 1 <= r.value <= selection
    ensures r.Some? ==> r.value + FastScrollSpeed(accel) as int == selection
  {
    var fast := FastScrollSpeed(accel) as int;
    if selection > fast then Some(selection - fast) else None
  }

  /** The worked examples: with acceleration 2 a page is 8 rows. */
  lemma PageUpExamples()
    ensures PageUp(10, 2) == Some(2)
    ensures PageUp(8, 2) == None
    ensures PageUp(5, 2) == None
  {
    FastScrollSpeedGrows(2);
  }

  /** A counter decremented only while it is positive: it never goes below zero. */
  function DecrementToZero(n: uint32): (r: uint32)
    ensures r as int == Max(n as int - 1, 0)
    ensures r <= n && (n > 0 ==> r < n)
  {
    if n > 0 then n - 1 else 0
  }

  /** `k` decrements of a count. */
  function DecrementTimes(n: uint32, k: nat): uint32 {
    if k == 0 then n else DecrementTimes(DecrementToZero(n), k - 1)
  }

  /** `k` left presses take a count down by `k`, stopping at zero. */
  lemma {:induction false} DecrementTimesSaturates(n: uint32, k: nat)
    ensures DecrementTimes(n, k) as int == Max(n as int - k, 0)
  {
    if k > 0 {
      DecrementTimesSaturates(DecrementToZero(n), k - 1);
    }
  }

  /** A shader pass's scale after one left press: `(scale + 5) % 6` in `unsigned`. */
  function ScaleLeft(scale: uint32): (r: uint32)
    ensures r < 6
    ensures scale < 6 ==> r as int == (scale as int - 1) % 6
  {
    (((scale as int + 5) % U32_MODULUS) % 6) as uint32
  }

  /** A shader pass's filter after one left press: `(filter + 2) % 3` in `unsigned`. */
  function FilterLeft(filter: uint32): (r: uint32)
    ensures r < 3
    ensures filter < 3 ==> r as int == (filter as int - 1) % 3
  {
    (((filter as int + 2) % U32_MODULUS) % 3) as uint32
  }

  function ScaleLeftTimes(scale: uint32, k: nat): uint32
    decreases k
  {
    if k == 0 then scale else ScaleLeftTimes(ScaleLeft(scale), k - 1)
  }

  function FilterLeftTimes(filter: uint32, k: nat): uint32
    decreases k
  {
    if k == 0 then filter else FilterLeftTimes(FilterLeft(filter), k - 1)
  }

  /** `k` left presses on a scale in range step it back `k` places around 0..5. */
  lemma {:induction false} ScaleLeftTimesSteps(scale: uint32, k: nat)
    requires scale < 6
    ensures ScaleLeftTimes(scale, k) as int == (scale as int - k) % 6
    decreases k
  {
    if k > 0 {
      var s1 := ScaleLeft(scale);
      ScaleLeftTimesSteps(s1, k - 1);
      if scale == 0 {
        assert s1 == 5;
      } else {
        assert s1 as int == scale as int - 1;
      }
    }
  }

  /** Stepping a residue back by `k` returns to it exactly when `k` is a whole number of turns of six. */
  lemma BackToStartSix(x: int, k: int)
    requires 0 <= x < 6
    ensures (x - k) % 6 == x <==> k % 6 == 0
  {
  }

  /** Left presses bring a scale in 0..5 back to where it was exactly after a multiple of six presses. */
  lemma ScaleCycle(scale: uint32, k: nat)
    requires scale < 6
    ensures ScaleLeftTimes(scale, k) == scale <==> k % 6 == 0
  {
    ScaleLeftTimesSteps(scale, k);
    BackToStartSix(scale as int, k);
  }

  /** `k` left presses on a filter in range step it back `k` places around 0..2. */
  lemma {:induction false} FilterLeftTimesSteps(filter: uint32, k: nat)
    requires filter < 3
    ensures FilterLeftTimes(filter, k) as int == (filter as int - k) % 3
    decreases k
  {
    if k > 0 {
      var f1 := FilterLeft(filter);
      FilterLeftTimesSteps(f1, k - 1);
      if filter == 0 {
        assert f1 == 2;
      } else {
        assert f1 as int == filter as int - 1;
      }
    }
  }

  /** Stepping a residue back by `k` returns to it exactly when `k` is a whole number of turns of three. */
  lemma BackToStartThree(x: int, k: int)
    requires 0 <= x < 3
    ensures (x - k) % 3 == x <==> k % 3 == 0
  {
  }

  /** Left presses bring a filter in 0..2 back to where it was exactly after a multiple of three presses. */
  lemma FilterCycle(filter: uint32, k: nat)
    requires filter < 3
    ensures FilterLeftTimes(filter, k) == filter <==> k % 3 == 0
  {
    FilterLeftTimesSteps(filter, k);
    BackToStartThree(filter as int, k);
  }

  /**
   * `generic_shader_action_parameter_left`: step a shader parameter down by
   * its step, then clamp it to its range (`MIN(MAX(minimum, x), maximum)`).
   */
  function ParameterLeft(current: real, minimum: real, maximum: real, step: real): (r: real)
    ensures minimum <= maximum ==> minimum <= r <= maximum
    ensures minimum <= current - step <= maximum ==> r == current - step
    ensures minimum <= maximum && current - step < minimum ==> r == minimum
    ensures r <= maximum
  {
    var lowered := current - step;
    var atLeastMin := if minimum < lowered then lowered else minimum;
    if atLeastMin < maximum then atLeastMin else maximum
  }

  /** `k` left presses on a parameter. */
  function ParameterLeftTimes(current: real, minimum: real, maximum: real, step: real, k: nat): real
    decreases k
  {
    if k == 0 then current
    else ParameterLeftTimes(ParameterLeft(current, minimum, maximum, step), minimum, maximum, step, k - 1)
  }

  /**
   * With a non-negative step and a well-formed range, left presses never raise
   * a parameter that is in range, and keep it in range.
   */
  lemma {:induction false} ParameterLeftDescends(current: real, minimum: real, maximum: real, step: real, k: nat)
    requires minimum <= current <= maximum && 0.0 <= step
    ensures minimum <= ParameterLeftTimes(current, minimum, maximum, step, k) <= current
    decreases k
  {
    if k > 0 {
      ParameterLeftDescends(ParameterLeft(current, minimum, maximum, step), minimum, maximum, step, k - 1);
    }
  }

  /** The remap cell of an input-description row: `divmod(offset, bindsPerUser)`. */
  function RemapCell(offset: uint32, bindsPerUser: nat): (cell: (nat, nat))
    requires bindsPerUser > 0
    ensures cell.1 < bindsPerUser
    ensures cell.0 * bindsPerUser + cell.1 == offset as int
  {
    var user := offset as int / bindsPerUser;
    (user, offset as int - user * bindsPerUser)
  }

  /**
   * The loop of `playlist_association_left` over the installed cores: it
   * remembers every position whose path matches and so ends on the last one.
   */
  method FindCurrentCore(list: seq<string>, corePath: string) returns (current: nat)
    ensures current == LastMatch(list, corePath)
  {
    current := 0;
    var i := 0;
    while i < |list|
      invariant 0 <= i <= |list|
      invariant current == LastMatch(list[..i], corePath)
    {
      assert list[..i + 1][..i] == list[..i];
      if list[i] == corePath {
        current := i;
      }
      i := i + 1;
    }
    assert list[..i] == list;
  }

  // ---------------------------------------------------------------------------
  // State

  /** One pass of the menu's shader preset (`struct video_shader_pass`), as far as the handlers touch it. */
  class ShaderPass {
    var filter: uint32
    var scaleX: uint32
    var scaleY: uint32
    var valid: bool
  }

  /** A shader parameter (`struct video_shader_parameter`), as far as the handlers touch it; floats are reals. */
  class ShaderParameter {
    var current: real
    var minimum: real
    var maximum: real
    var step: real
  }

  /** A snapshot of every field of `Menu` that a handler may change. */
  datatype MenuState = MenuState(
    selection: nat,
    scrollAccel: Option<nat>,
    driverData: bool,
    listSelection: nat,
    listSize: nat,
    entryListSwitch: seq<bool>,
    wraparoundEnable: bool,
    smoothSetting: bool,
    cheatSize: uint32,
    shaderLoaded: bool,
    shaderPassCount: uint32,
    playlistNames: seq<string>,
    playlistCores: seq<string>,
    coreCatalog: Option<seq<string>>,
    effects: seq<Effect>)

  /**
   * `action_left_scroll` on a snapshot. Within a page of the top the handler
   * only asks the menu driver to clear the navigation; the selection is then
   * whatever `cfg.navigationClear` says that request leaves.
   */
  function ScrollSpec(cfg: Config, s: MenuState): MenuState {
    if s.scrollAccel.None? then s
    else match PageUp(s.selection, s.scrollAccel.value)
      case Some(sel) => s.(selection := sel, effects := s.effects + [NavigationSet])
      case None => s.(selection := cfg.navigationClear(s.selection),
                      effects := s.effects + [NavigationClear(false)])
  }

  /** The entry at `i` of the selection buffer exists and can switch lists. */
  function HasListSwitchAt(entries: seq<bool>, i: nat): bool {
    i < |entries| && entries[i]
  }

  /** `action_left_mainmenu` on a snapshot: the new state and the returned status. */
  function MainmenuSpec(cfg: Config, s: MenuState): (MenuState, Status) {
    if !s.driverData then (s, MenuExit)
    else if s.listSize == 1 then
      var top := s.(selection := 0);
      if s.listSelection != 0 || s.wraparoundEnable then
        var cached := top.(effects := top.effects + [ListCacheHorizontalLeft]);
        if HasListSwitchAt(s.entryListSwitch, 0) then
          (cached.(effects := cached.effects + [ContentListSwitch]), Delegated)
        else (cached, Code(0))
      else (top, Code(0))
    else (ScrollSpec(cfg, s), Code(0))
  }

  /**
   * Page up moves the cursor exactly when a page is available, then strictly
   * up by one page and never to row 0; within a page of the top it requests a
   * navigation clear instead. Nothing but the selection and the effects
   * changes.
   */
  lemma ScrollSpecMovesUp(cfg: Config, s: MenuState)
    requires s.scrollAccel.Some? && s.scrollAccel.value < ACCEL_BOUND
    ensures var t := ScrollSpec(cfg, s);
            var fast := FastScrollSpeed(s.scrollAccel.value) as int;
            (s.selection > fast ==>
               t.effects == s.effects + [NavigationSet]
               && t.selection == s.selection - fast && 0 < t.selection < s.selection)
            && (s.selection <= fast ==>
                  t.effects == s.effects + [NavigationClear(false)]
                  && t.selection == cfg.navigationClear(s.selection))
    ensures ScrollSpec(cfg, s).(selection := s.selection, effects := s.effects) == s
  {
    FastScrollSpeedGrows(s.scrollAccel.value);
  }

  /**
   * On a one-entry list the cursor goes to the top; the horizontal-list cache
   * is requested exactly when the previous selection was not the first or
   * wraparound is enabled, and the list switch of the top entry then runs,
   * and its status is returned, exactly when that entry has one. On any other
   * list the handler is a page up.
   */
  lemma MainmenuSwitchesIff(cfg: Config, s: MenuState)
    requires s.driverData
    ensures s.listSize == 1 ==>
              var (t, st) := MainmenuSpec(cfg, s);
              var push := s.listSelection != 0 || s.wraparoundEnable;
              var switches := push && HasListSwitchAt(s.entryListSwitch, 0);
              t == s.(selection := 0,
                      effects := s.effects
                                 + (if push then [ListCacheHorizontalLeft] else [])
                                 + (if switches then [ContentListSwitch] else []))
              && st == (if switches then Delegated else Code(0))
    ensures s.listSize != 1 ==> MainmenuSpec(cfg, s) == (ScrollSpec(cfg, s), Code(0))
  {
  }

  /**
   * The context the handlers share. `cfg` holds the build and platform
   * parameters; `remapIds` is `settings->uints.input_remap_ids`, one row per
   * user; `shaderPasses` and `presetParameters` are the pass slots and the
   * parameters of the menu's shader preset; `liveParameters` those of the
   * shader the video driver is running.
   */
  class Menu {
    const cfg: Config
    const remapIds: array2<uint32>
    const shaderPasses: seq<ShaderPass>
    const presetParameters: seq<ShaderParameter>
    const liveParameters: seq<ShaderParameter>

    var selection: nat                // menu_navigation_get/set_selection
    var scrollAccel: Option<nat>      // MENU_NAVIGATION_CTL_GET_SCROLL_ACCEL, None when it fails
    var driverData: bool              // RARCH_MENU_CTL_DRIVER_DATA_GET succeeds
    var listSelection: nat            // RARCH_MENU_CTL_LIST_GET_SELECTION
    var listSize: nat                 // RARCH_MENU_CTL_LIST_GET_SIZE, plain list
    var entryListSwitch: seq<bool>    // per selection-buffer entry: has action_content_list_switch
    var wraparoundEnable: bool        // settings->bools.menu_navigation_wraparound_enable
    var smoothSetting: bool           // menu_setting_find_enum(VIDEO_SMOOTH) finds a setting
    var cheatSize: uint32             // cheat_manager_get_size
    var shaderLoaded: bool            // menu_shader_get() is non-null
    var shaderPassCount: uint32       // menu_shader_manager_get_amount_passes
    var playlistNames: seq<string>    // settings->arrays.playlist_names, split on ';'
    var playlistCores: seq<string>    // settings->arrays.playlist_cores, split on ';'
    var coreCatalog: Option<seq<string>> // core_info_get_list: installed core paths, None when absent
    var effects: seq<Effect>

    function State(): MenuState
      reads this
    {
      MenuState(selection, scrollAccel, driverData, listSelection, listSize, entryListSwitch,
                wraparoundEnable, smoothSetting, cheatSize, shaderLoaded, shaderPassCount,
                playlistNames, playlistCores, coreCatalog, effects)
    }

    /** `menu_shader_manager_get_pass(i)`: the pass slot, or null without a shader or past the last slot. */
    function PassAt(i: uint32): ShaderPass?
      reads this
    {
      if shaderLoaded && (i as int) < |shaderPasses| then shaderPasses[i] else null
    }

    /** `menu_shader_manager_get_parameters(i)`: the preset's parameter, or null without a shader or past the last one. */
    function PresetParameterAt(i: uint32): ShaderParameter?
      reads this
    {
      if shaderLoaded && (i as int) < |presetParameters| then presetParameters[i] else null
    }

    function ParameterFrame(params: seq<ShaderParameter>, i: uint32): set<object> {
      if (i as int) < |params| then {params[i]} else {}
    }

    function PassFrame(i: uint32): set<object>
      reads this
    {
      if (i as int) < |shaderPasses| then {shaderPasses[i]} else {}
    }

    /** `action_left_scroll`: one page up, or clear the pending push when within a page of the top. */
    method ScrollLeft() returns (st: Status)
      modifies this
      ensures st == Code(0)
      ensures State() == ScrollSpec(cfg, old(State()))
    {
      var sel := selection;
      if scrollAccel.None? {
        return Code(0);
      }
      var fast := FastScrollSpeed(scrollAccel.value) as int;
      if sel > fast {
        selection := sel - fast;
        effects := effects + [NavigationSet];
      } else {
        effects := effects + [NavigationClear(false)];
        selection := cfg.navigationClear(selection);
      }
      return Code(0);
    }

    /** `action_left_mainmenu`: collapse a one-entry list onto the horizontal menu, page up otherwise. */
    method MainmenuLeft() returns (st: Status)
      modifies this
      ensures (State(), st) == MainmenuSpec(cfg, old(State()))
    {
      if !driverData {
        return MenuExit;
      }
      var pushList := 0;
      if listSize == 1 {
        selection := 0;
        if listSelection != 0 || wraparoundEnable {
          pushList := 1;
        }
      } else {
        pushList := 2;
      }

      if pushList == 1 {
        effects := effects + [ListCacheHorizontalLeft];
        if HasListSwitchAt(entryListSwitch, selection) {
          effects := effects + [ContentListSwitch];
          return Delegated;
        }
      } else if pushList == 2 {
        var _ := ScrollLeft();
      }
      return Code(0);
    }

    /** `action_left_shader_scale_pass`: step the pass's scale back around 0..5 and mark it valid when non-zero. */
    method ShaderScalePassLeft(entryType: uint32) returns (st: Status)
      modifies PassFrame(U32Sub(entryType, cfg.codes.shaderPassScale0))
      ensures var p := PassAt(U32Sub(entryType, cfg.codes.shaderPassScale0));
        if !cfg.haveShaderManager then
          st == Code(0) && unchanged(PassFrame(U32Sub(entryType, cfg.codes.shaderPassScale0)))
        else if p == null then
          st == MenuExit && unchanged(PassFrame(U32Sub(entryType, cfg.codes.shaderPassScale0)))
        else
          st == Code(0) && p.scaleX == ScaleLeft(old(p.scaleX)) && p.scaleY == p.scaleX
          && p.valid == (p.scaleX != 0) && p.filter == old(p.filter)
    {
      if cfg.haveShaderManager {
        var pass := U32Sub(entryType, cfg.codes.shaderPassScale0);
        var shaderPass := PassAt(pass);
        if shaderPass == null {
          return MenuExit;
        }
        var currentScale := ScaleLeft(shaderPass.scaleX);
        shaderPass.valid := currentScale != 0;
        shaderPass.scaleX := currentScale;
        shaderPass.scaleY := currentScale;
      }
      return Code(0);
    }

    /** `action_left_shader_filter_pass`: step the pass's filter back around 0..2. */
    method ShaderFilterPassLeft(entryType: uint32) returns (st: Status)
      modifies PassFrame(U32Sub(entryType, cfg.codes.shaderPassFilter0))
      ensures var p := PassAt(U32Sub(entryType, cfg.codes.shaderPassFilter0));
        if !cfg.haveShaderManager then
          st == Code(0) && unchanged(PassFrame(U32Sub(entryType, cfg.codes.shaderPassFilter0)))
        else if p == null then
          st == MenuExit && unchanged(PassFrame(U32Sub(entryType, cfg.codes.shaderPassFilter0)))
        else
          st == Code(0) && p.filter == FilterLeft(old(p.filter))
          && p.scaleX == old(p.scaleX) && p.scaleY == old(p.scaleY) && p.valid == old(p.valid)
    {
      if cfg.haveShaderManager {
        var pass := U32Sub(entryType, cfg.codes.shaderPassFilter0);
        var shaderPass := PassAt(pass);
        if shaderPass == null {
          return MenuExit;
        }
        shaderPass.filter := FilterLeft(shaderPass.filter);
      }
      return Code(0);
    }

    /** `action_left_input_desc`: decrement one remap cell, never below zero. */
    method InputDescLeft(entryType: uint32) returns (st: Status)
      requires cfg.bindsPerUser > 0
      requires RemapCell(U32Sub(entryType, cfg.codes.inputDescBegin), cfg.bindsPerUser).0 < remapIds.Length0
      requires cfg.bindsPerUser <= remapIds.Length1
      modifies remapIds
      ensures st == Code(0)
      ensures var (user, button) := RemapCell(U32Sub(entryType, cfg.codes.inputDescBegin), cfg.bindsPerUser);
        remapIds[user, button] == DecrementToZero(old(remapIds[user, button]))
        && forall i, j :: 0 <= i < remapIds.Length0 && 0 <= j < remapIds.Length1 && (i != user || j != button)
             ==> remapIds[i, j] == old(remapIds[i, j])
    {
      var offset := U32Sub(entryType, cfg.codes.inputDescBegin);
      var user := offset as int / cfg.bindsPerUser;
      var button := offset as int - user * cfg.bindsPerUser;
      if remapIds[user, button] > 0 {
        remapIds[user, button] := remapIds[user, button] - 1;
      }
      return Code(0);
    }

    /** `action_left_cheat_num_passes`: one cheat fewer, never below zero, after requesting a refresh. */
    method CheatNumPassesLeft() returns (st: Status)
      modifies this
      ensures st == Code(0)
      ensures State() == old(State()).(cheatSize := DecrementToZero(old(cheatSize)),
                                      effects := old(effects) + [SetRefresh(false), SetPreventPopulate])
    {
      var newSize: uint32 := 0;
      if cheatSize != 0 {
        newSize := cheatSize - 1;
      }
      effects := effects + [SetRefresh(false), SetPreventPopulate];
      cheatSize := newSize;
      return Code(0);
    }

    /** `action_left_shader_num_passes`: one shader pass fewer, never below zero, then re-resolve parameters. */
    method ShaderNumPassesLeft() returns (st: Status)
      modifies this
      ensures !cfg.haveShaderManager ==> st == Code(0) && State() == old(State())
      ensures cfg.haveShaderManager && !old(shaderLoaded) ==> st == MenuExit && State() == old(State())
      ensures cfg.haveShaderManager && old(shaderLoaded) ==>
                st == Code(0)
                && State() == old(State()).(shaderPassCount := DecrementToZero(old(shaderPassCount)),
                                           effects := old(effects) + [SetRefresh(false), SetPreventPopulate,
                                                                      ResolveShaderParameters])
    {
      if cfg.haveShaderManager {
        if !shaderLoaded {
          return MenuExit;
        }
        if shaderPassCount != 0 {
          shaderPassCount := shaderPassCount - 1;
        }
        effects := effects + [SetRefresh(false), SetPreventPopulate, ResolveShaderParameters];
      }
      return Code(0);
    }

    /**
     * `playlist_association_left` for the playlist whose file name is
     * `playlistName`; `associated` is the core the playlist is associated with,
     * if any.
     */
    method PlaylistAssociationLeft(playlistName: string, associated: Option<string>, wraparound: bool)
      returns (st: Status)
      modifies this
      ensures old(coreCatalog).None? ==> st == MenuExit && State() == old(State())
      ensures old(coreCatalog).Some? ==>
                st == Code(0)
                && State() == old(State()).(playlistCores :=
                     AssociateLeft(old(playlistNames), old(playlistCores), old(coreCatalog).value,
                                   playlistName, associated, wraparound))
    {
      if coreCatalog.None? {
        return MenuExit;
      }
      var list := coreCatalog.value;
      var stnames := playlistNames;
      var stcores := playlistCores;
      var corePath := if associated.Some? then associated.value else DetectCorePath;

      var current := FindCurrentCore(list, corePath);
      var next := current as int - 1;
      if next < 0 {
        if wraparound {
          next := |list| - 1;
        } else {
          next := 0;
        }
      }

      assert next == NextCoreIndex(list, corePath, wraparound);

      var info := CoreAt(list, next);
      var found := FindElem(stnames, playlistName);
      if found > 0 && info.Some? && found - 1 < |stcores| {
        stcores := stcores[found - 1 := info.value];
      }
      assert stcores == AssociateLeft(stnames, playlistCores, list, playlistName, associated, wraparound);
      playlistCores := stcores;
      return Code(0);
    }

    /** `action_left_cheat`: toggle the cheat the row stands for, through the cheat manager. */
    method CheatLeft(entryType: uint32) returns (st: Status)
      modifies this
      ensures st == Delegated
      ensures State() == old(State()).(effects := old(effects) + [CheatToggle(U32Sub(entryType, cfg.codes.cheatBegin))])
    {
      effects := effects + [CheatToggle(U32Sub(entryType, cfg.codes.cheatBegin))];
      return Delegated;
    }

    /** `shader_action_parameter_left`: step the live shader parameter the row stands for. */
    method ShaderParameterLeft(entryType: uint32) returns (st: Status)
      requires cfg.haveShaderManager
      requires (U32Sub(entryType, cfg.codes.shaderParameter0) as int) < |liveParameters|
      modifies liveParameters[U32Sub(entryType, cfg.codes.shaderParameter0)]
      ensures st == Code(0)
      ensures var p := liveParameters[U32Sub(entryType, cfg.codes.shaderParameter0)];
        p.current == ParameterLeft(old(p.current), p.minimum, p.maximum, p.step)
        && p.minimum == old(p.minimum) && p.maximum == old(p.maximum) && p.step == old(p.step)
    {
      var param := liveParameters[U32Sub(entryType, cfg.codes.shaderParameter0)];
      param.current := ParameterLeft(param.current, param.minimum, param.maximum, param.step);
      return Code(0);
    }

    /** `shader_action_parameter_preset_left`: step the preset parameter the row stands for, if there is one. */
    method ShaderParameterPresetLeft(entryType: uint32) returns (st: Status)
      requires cfg.haveShaderManager
      modifies ParameterFrame(presetParameters, U32Sub(entryType, cfg.codes.shaderPresetParameter0))
      ensures st == Code(0)
      ensures var p := PresetParameterAt(U32Sub(entryType, cfg.codes.shaderPresetParameter0));
        if p == null then
          unchanged(ParameterFrame(presetParameters, U32Sub(entryType, cfg.codes.shaderPresetParameter0)))
        else
          p.current == ParameterLeft(old(p.current), p.minimum, p.maximum, p.step)
          && p.minimum == old(p.minimum) && p.maximum == old(p.maximum) && p.step == old(p.step)
    {
      var param := PresetParameterAt(U32Sub(entryType, cfg.codes.shaderPresetParameter0));
      if param == null {
        return Code(0);
      }
      param.current := ParameterLeft(param.current, param.minimum, param.maximum, param.step);
      return Code(0);
    }

    /** `action_left_shader_filter_default`: hand a left press to the global smoothing setting. */
    method ShaderFilterDefaultLeft() returns (st: Status)
      modifies this
      ensures !cfg.haveShaderManager ==> st == Code(0) && State() == old(State())
      ensures cfg.haveShaderManager && !old(smoothSetting) ==> st == MenuExit && State() == old(State())
      ensures cfg.haveShaderManager && old(smoothSetting) ==>
                st == Delegated && State() == old(State()).(effects := old(effects) + [HandleSmoothSetting])
    {
      if !cfg.haveShaderManager {
        return Code(0);
      }
      if !smoothSetting {
        return MenuExit;
      }
      effects := effects + [HandleSmoothSetting];
      return Delegated;
    }

    /** `action_left_video_resolution`: ask the video driver for the previous output mode. */
    method VideoResolutionLeft() returns (st: Status)
      modifies this
      ensures st == Code(0)
      ensures State() == old(State()).(effects := old(effects) + [PrevVideoOut])
    {
      effects := effects + [PrevVideoOut];
      return Code(0);
    }

    /** `core_setting_left`: select the previous value of the core option the row stands for. */
    method CoreSettingLeft(entryType: uint32) returns (st: Status)
      modifies this
      ensures st == Code(0)
      ensures State() == old(State()).(effects := old(effects)
                + [CoreOptionPrev(U32Sub(entryType, cfg.codes.coreOptionStart))])
    {
      effects := effects + [CoreOptionPrev(U32Sub(entryType, cfg.codes.coreOptionStart))];
      return Code(0);
    }

    /** `disk_options_disk_idx_left`: select the previous disk image. */
    method DiskIndexLeft() returns (st: Status)
      modifies this
      ensures st == Code(0)
      ensures State() == old(State()).(effects := old(effects) + [DiskPrev])
    {
      effects := effects + [DiskPrev];
      return Code(0);
    }

    /** `bind_left_generic`: hand a left press to the row's setting. */
    method GenericLeft(entryType: uint32, entryLabel: string, wraparound: bool) returns (st: Status)
      modifies this
      ensures st == Delegated
      ensures State() == old(State()).(effects := old(effects) + [SettingSet(entryType, entryLabel, wraparound)])
    {
      effects := effects + [SettingSet(entryType, entryLabel, wraparound)];
      return Delegated;
    }
  }
}
