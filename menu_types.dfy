/**
 * Data model shared by the left-action resolver and the handlers it binds
 * (menu/cbs/menu_cbs_left.c).
 *
 * Strings the source compares against `msg_hash_to_str(...)` constants are
 * modelled as tags: a `MenuLabel` is one of the ten well-known list labels or
 * `OtherLabel(text)` for any other string. Enum ids are tags in the same way.
 * The numeric values of the menu's type codes live in headers that are not
 * part of this model, so they are a `TypeCodes` record handed to the resolver.
 */
module MenuTypes {

  datatype Option<T> = None | Some(value: T) {
    function GetOr(default: T): T {
      match this
      case Some(v) => v
      case None => default
    }
  }

  /** C `unsigned` / `uint32_t`. */
  newtype uint32 = x: int | 0 <= x < 0x1_0000_0000

  const U32_MODULUS: int := 0x1_0000_0000

  /** Unsigned 32-bit subtraction `a - b`, wrapping below zero as C does. */
  function U32Sub(a: uint32, b: uint32): (r: uint32)
    ensures a >= b ==> r as int == a as int - b as int
    ensures a < b ==> r as int == a as int - b as int + U32_MODULUS
  {
    ((a as int - b as int) % U32_MODULUS) as uint32
  }

  /** The handlers `BIND_ACTION_LEFT` can store into a callback slot. */
  datatype Handler =
    | BindLeftGeneric             // bind_left_generic, the default
    | ActionLeftMainmenu          // action_left_mainmenu (list collapse / tab switch)
    | ActionLeftScroll            // action_left_scroll (page up)
    | ActionLeftCheat             // action_left_cheat
    | ShaderActionParameterLeft   // shader_action_parameter_left
    | ShaderActionParameterPresetLeft // shader_action_parameter_preset_left
    | ActionLeftInputDesc         // action_left_input_desc
    | PlaylistAssociationLeft     // playlist_association_left
    | CoreSettingLeft             // core_setting_left
    | DiskOptionsDiskIdxLeft      // disk_options_disk_idx_left
    | ActionLeftShaderScalePass   // action_left_shader_scale_pass
    | ActionLeftShaderFilterPass  // action_left_shader_filter_pass
    | ActionLeftShaderFilterDefault // action_left_shader_filter_default
    | ActionLeftShaderNumPasses   // action_left_shader_num_passes
    | ActionLeftCheatNumPasses    // action_left_cheat_num_passes
    | ActionLeftVideoResolution   // action_left_video_resolution

  /** The debug identifier `BIND_ACTION_LEFT` stores beside the handler (`#name`). */
  function Ident(h: Handler): (s: string)
    ensures |s| > 0
  {
    match h
    case BindLeftGeneric => "bind_left_generic"
    case ActionLeftMainmenu => "action_left_mainmenu"
    case ActionLeftScroll => "action_left_scroll"
    case ActionLeftCheat => "action_left_cheat"
    case ShaderActionParameterLeft => "shader_action_parameter_left"
    case ShaderActionParameterPresetLeft => "shader_action_parameter_preset_left"
    case ActionLeftInputDesc => "action_left_input_desc"
    case PlaylistAssociationLeft => "playlist_association_left"
    case CoreSettingLeft => "core_setting_left"
    case DiskOptionsDiskIdxLeft => "disk_options_disk_idx_left"
    case ActionLeftShaderScalePass => "action_left_shader_scale_pass"
    case ActionLeftShaderFilterPass => "action_left_shader_filter_pass"
    case ActionLeftShaderFilterDefault => "action_left_shader_filter_default"
    case ActionLeftShaderNumPasses => "action_left_shader_num_passes"
    case ActionLeftCheatNumPasses => "action_left_cheat_num_passes"
    case ActionLeftVideoResolution => "action_left_video_resolution"
  }

  /** Distinct handlers carry distinct identifiers, so the identifier names the bound handler. */
  lemma IdentInjective(a: Handler, b: Handler)
    ensures Ident(a) == Ident(b) ==> a == b
  {
  }

  /**
   * The owning-list label (`menu_label`) and a setting's parent group, as the
   * `msg_hash_to_str` constant they equal, or any other text.
   */
  datatype MenuLabel =
    | HistoryTab | PlaylistsTab | AddTab | NetplayTab | MainMenu
    | MusicTab | ImagesTab | VideoTab | HorizontalMenu | SettingsTab
    | OtherLabel(text: string)

  /** `cbs->enum_idx`: the entries the label switch names, `MSG_UNKNOWN`, or any other id. */
  datatype MenuEnum =
    | MsgUnknown
    | ConnectNetplayRoom
    | VideoShaderScalePass
    | VideoShaderFilterPass
    | VideoShaderDefaultFilter
    | VideoShaderNumPasses
    | CheatNumPasses
    | ScreenResolution
    | OpenArchiveDetectCore
    | LoadArchiveDetectCore
    | NoItems
    | NoPlaylistEntriesAvailable
    | StartVideoProcessor
    | TakeScreenshot
    | OtherEnum(id: nat)

  /** `setting_get_type`: only `ST_GROUP` is told apart by the resolver. */
  datatype SettingType = StGroup | StOther(code: nat)

  /** The setting bound to an entry (`cbs->setting`), as far as the resolver reads it. */
  datatype BoundSetting = BoundSetting(parentGroup: MenuLabel, kind: SettingType)

  /**
   * One menu row at resolution time: the arguments of `menu_cbs_init_bind_left`
   * plus the two callback fields it reads (`cbs->setting`, `cbs->enum_idx`).
   * `path` and `index` are passed in by the caller and never consulted.
   */
  datatype Descriptor = Descriptor(
    path: string,
    entryLabel: string,
    labelHash: uint32,
    entryType: uint32,
    index: nat,
    menuLabel: MenuLabel,
    enumIdx: MenuEnum,
    setting: Option<BoundSetting>)

  /**
   * Numeric values of the menu type codes the resolver compares with.
   * `browsable` holds the 33 case labels of the file-entry group (FILE_TYPE_PLAIN
   * through MENU_SETTINGS_CORE_INFO_NONE); `collapse` holds MENU_SETTING_ACTION
   * and FILE_TYPE_CONTENTLIST_ENTRY.
   */
  datatype TypeCodes = TypeCodes(
    settingNoItem: uint32,
    cheatBegin: uint32, cheatEnd: uint32,
    shaderParameter0: uint32, shaderParameterLast: uint32,
    shaderPresetParameter0: uint32, shaderPresetParameterLast: uint32,
    inputDescBegin: uint32, inputDescEnd: uint32,
    playlistAssociationStart: uint32,
    coreOptionStart: uint32,
    diskIndex: uint32,
    browsable: set<uint32>,
    collapse: set<uint32>,
    shaderPassScale0: uint32,
    shaderPassFilter0: uint32)
  {
    /** The exact-type switch is a C `switch`: its case labels are distinct. */
    predicate WellFormed() {
      diskIndex !in browsable && diskIndex !in collapse && browsable * collapse == {}
    }
  }

  /**
   * Build- and platform-level parameters: `HAVE_SHADER_MANAGER`, `MAX_USERS`,
   * `RARCH_FIRST_CUSTOM_BIND + 4` (binds per user in the remap table),
   * `msg_hash_calculate`, the type codes, and the selection the menu driver's
   * `MENU_NAVIGATION_CTL_CLEAR` leaves behind given the one before it (the
   * driver's code is not part of this model, so nothing is assumed about it).
   */
  datatype Config = Config(
    haveShaderManager: bool,
    maxUsers: nat,
    bindsPerUser: nat,
    labelHash: string -> uint32,
    codes: TypeCodes,
    navigationClear: nat -> nat)

  /** What a handler returns: a plain code, `menu_cbs_exit()`, or whatever the collaborator it delegates to returns. */
  datatype Status = Code(value: int) | MenuExit | Delegated

  /** Calls a handler makes into collaborators outside this file, in order. */
  datatype Effect =
    | NavigationSet                      // menu_driver_navigation_set(true)
    | NavigationClear(pendingPush: bool) // MENU_NAVIGATION_CTL_CLEAR
    | ListCacheHorizontalLeft            // RARCH_MENU_CTL_LIST_CACHE, horizontal list, left
    | ContentListSwitch                  // cbs->action_content_list_switch(...)
    | SetRefresh(nonblocking: bool)      // MENU_ENTRIES_CTL_SET_REFRESH
    | SetPreventPopulate                 // RARCH_MENU_CTL_SET_PREVENT_POPULATE
    | ResolveShaderParameters            // video_shader_resolve_parameters
    | CheatToggle(index: uint32)         // generic_action_cheat_toggle
    | HandleSmoothSetting                // menu_action_handle_setting(VIDEO_SMOOTH, LEFT)
    | PrevVideoOut                       // video_driver_get_prev_video_out
    | CoreOptionPrev(index: uint32)      // RARCH_CTL_CORE_OPTION_PREV
    | DiskPrev                           // CMD_EVENT_DISK_PREV
    | SettingSet(entryType: uint32, entryLabel: string, wraparound: bool) // menu_setting_set(LEFT)

  /** `sub` occurs in `s` starting at position `i`. */
  predicate OccursAt(s: string, sub: string, i: nat) {
    i + |sub| <= |s| && s[i..i + |sub|] == sub
  }

  /** `strstr(s, sub) != NULL`. */
  predicate Contains(s: string, sub: string) {
    exists i: nat | i <= |s| :: OccursAt(s, sub, i)
  }

  /** A string contains each of its factors. */
  lemma ContainsFactor(pre: string, sub: string, post: string)
    ensures Contains(pre + sub + post, sub)
  {
    var s := pre + sub + post;
    assert s[|pre|..|pre| + |sub|] == sub;
    assert OccursAt(s, sub, |pre|);
  }
}
