# Left-action callbacks of the RetroArch menu, in Dafny

RetroArch's menu gives every row a set of callbacks. A "left" press on a row
runs the row's `action_left` callback. `menu/cbs/menu_cbs_left.c` decides
which handler a row gets, and it also holds the handlers themselves. This
project models both parts:

- **The resolver** (`menu_cbs_init_bind_left` and its two compare helpers).
  It is a pure, ordered rule classifier, modelled as the function
  `LeftResolver.Resolve`. Its input is a `Descriptor` holding:
  - the entry's label and label hash;
  - the type code;
  - the owning list's label;
  - the enum id;
  - the bound setting.

  Its output is a `Handler` tag, or `None` when no rule matches. The rules
  run in three stages:
  1. the no-item sentinel;
  2. the label rules, ending in the enum switch;
  3. the type rules, ending in the exact-type switch.

  The same rules are restated as one flat, ordered `RuleTable` of (condition,
  handler) pairs, and `ResolveIsFirstMatchingRule` proves that the nested code
  binds what the first firing rule of the table binds. `InitBindLeft` writes
  the callback slot as the source does:
  - it binds `bind_left_generic` first;
  - a matching rule then overwrites it;
  - the status is -1 when no rule matches or the slot is null.
- **The handlers.** They are methods of a `Menu` class that holds the state
  they read and update in place:
  - the navigation selection and scroll acceleration;
  - the menu list;
  - the wraparound setting;
  - the cheat and shader-pass counts;
  - the playlist association lists and the core catalog.

  `ShaderPass` and `ShaderParameter` objects are updated in place.
  `input_remap_ids` is a two-dimensional array. Calls into code outside this
  file are appended, in order, to `Menu.effects` as `Effect` tags. Each
  method's contract gives its whole new state as a value-level function of the
  old state, such as `ScrollSpec`, `MainmenuSpec` or `AssociateLeft`. The
  properties the source promises are proved about those functions:
  - page-up arithmetic;
  - the six- and three-step cycles of the shader scale and filter;
  - saturating decrements;
  - stepping the playlist association to the previous core.

The project has four files:

| file | contents |
|---|---|
| `menu_types.dfy` | Handler tags, the row descriptor, the build parameters (`Config`), the type codes, effects, 32-bit unsigned arithmetic, substring search |
| `left_resolver.dfy` | The three resolver stages, the rule table and its equivalence proof, the callback slot |
| `left_handlers.dfy` | The handlers as methods of `Menu`, with their value-level specifications and lemmas |
| `playlist_association.dfy` | The value-level specification of `playlist_association_left` |

Some constants live in headers that are not part of this model, so they are
parameters:
- the numeric values of the menu type codes (`TypeCodes`);
- `MAX_USERS`;
- `RARCH_FIRST_CUSTOM_BIND + 4`;
- the hash function `msg_hash_calculate`.

Labels that the source compares with `msg_hash_to_str(...)` constants are
tags (`MenuLabel`, `MenuEnum`).

## Model

| member | source | states |
|---|---|---|
| MenuTypes.U32Sub | menu/cbs/menu_cbs_left.c:209-210 | The offset of a row inside its type range is the C `unsigned` difference: exact when the type is at or above the range start, and wrapped modulo 2^32 below it. |
| MenuTypes.Ident | menu/cbs/menu_cbs_left.c:41-47 | Every handler has a non-empty identifier stored beside it. |
| MenuTypes.IdentInjective | menu/cbs/menu_cbs_left.c:41-47 | Two handlers with the same identifier are the same handler, so the stored identifier names the bound handler. |
| LeftResolver.MenuFileListCbs.BindActionLeft | menu/cbs/menu_cbs_left.c:41-47 | Binding writes the handler and its matching identifier together. |
| LeftResolver.JoypadIndexLabel | menu/cbs/menu_cbs_left.c:414 | The generated per-user label always contains both substrings the joypad-index rule looks for. |
| LeftResolver.FindJoypadUser | menu/cbs/menu_cbs_left.c:404-423 | The loop over user slots finds a slot exactly when some slot below `MAX_USERS` has a label hash equal to the row's, and it stops at the first such slot. |
| LeftResolver.CompareEnum | menu/cbs/menu_cbs_left.c:437-510 | The enum switch never binds the generic handler. `MSG_UNKNOWN` and unlisted enums match nothing. Screenshot and video-processor rows match exactly in the nine browser tabs. |
| LeftResolver.CompareLabel | menu/cbs/menu_cbs_left.c:388-514 | The label stage binds only label-stage handlers. It binds `bind_left_generic` exactly for a joypad-index row that is not a main-menu group. Rows of the playlists tab and `rdb_entry` rows always match. |
| LeftResolver.CompareExactType | menu/cbs/menu_cbs_left.c:549-611 | The exact switch matches exactly the disk-index, browsable and collapse types. With distinct case labels: a browsable type binds mainmenu in the nine browser tabs and scroll elsewhere, and a collapse type always binds mainmenu. |
| LeftResolver.CompareType | menu/cbs/menu_cbs_left.c:516-615 | The type stage binds only type-stage handlers. Every type at or above the playlist-association start matches. A shader-parameter handler is bound only when the shader manager is built in. |
| LeftResolver.Resolve | menu/cbs/menu_cbs_left.c:617-653 | A no-item row in one of the ten tabs binds mainmenu before any other rule runs. A label match outranks every type rule. Nothing is bound exactly when all three stages fail. |
| LeftResolver.GenericOnlyForJoypadRows | menu/cbs/menu_cbs_left.c:404-423 | A rule binds `bind_left_generic` exactly for joypad-index rows that neither the sentinel nor the main-menu group rule claims. |
| LeftResolver.NoShaderManagerNoParameterHandlers | menu/cbs/menu_cbs_left.c:524-535 | Without the shader manager no row gets either shader-parameter handler. |
| LeftResolver.NoItemsRowRule | menu/cbs/menu_cbs_left.c:466-484 | A no-items row that reaches the enum switch binds mainmenu in the seven content tabs and scroll anywhere else. |
| LeftResolver.ScreenshotOutsideBrowserFallsThrough | menu/cbs/menu_cbs_left.c:485-503 | Outside the nine browser tabs, a screenshot or video-processor row falls through to the type rules. |
| LeftResolver.NoItemsExamples | menu/cbs/menu_cbs_left.c:627-644 | Worked rows: a no-item row in the history tab gets mainmenu from the sentinel. In a list that is not a tab, the same row gets scroll. |
| LeftResolver.ScreenshotExample | menu/cbs/menu_cbs_left.c:485-503 | Worked row: a screenshot row in the main menu whose type no rule names gets no handler. |
| LeftResolver.BrowsableExamples | menu/cbs/menu_cbs_left.c:556-604 | Worked rows: a browsable file binds mainmenu in the music tab and scroll in the main menu. |
| LeftResolver.TypeRangeExamples | menu/cbs/menu_cbs_left.c:516-548 | Worked rows: a shader-parameter type matches only with the shader manager. A type in both open-ended ranges goes to the playlist-association handler. |
| LeftResolver.JoypadExample | menu/cbs/menu_cbs_left.c:404-423 | Worked row: a joypad-index row whose label hash misses user slot 0 and matches slot 1 binds the generic handler, even though its type is in the input-description range. The same row with a hash that no user slot has is not a joypad-index row. |
| LeftResolver.FixedEnumCases | menu/cbs/menu_cbs_left.c:441-465 | Each enum case with a fixed handler is decided by the fixed part of the rule table. |
| LeftResolver.NoFixedEnumCase | menu/cbs/menu_cbs_left.c:466-510 | Any other enum fires no rule of the fixed part. |
| LeftResolver.TabEnumCases | menu/cbs/menu_cbs_left.c:466-510 | The tab-dependent enum cases and the default are decided by the tab part of the rule table. |
| LeftResolver.EnumSwitchIsEnumRules | menu/cbs/menu_cbs_left.c:437-510 | The enum switch, fall-throughs included, binds what the first firing enum rule binds. |
| LeftResolver.LabelStageIsLabelRules | menu/cbs/menu_cbs_left.c:388-514 | The label stage binds what the first firing label rule binds, in source order. |
| LeftResolver.TypeStageIsTypeRules | menu/cbs/menu_cbs_left.c:516-615 | The type stage binds what the first firing type rule binds: the four bounded ranges, then playlist-association before core-option, then the exact switch. |
| LeftResolver.ResolveIsFirstMatchingRule | menu/cbs/menu_cbs_left.c:617-653 | The resolver binds the handler of the highest-priority rule whose condition holds, taken from the flat table of sentinel, label and type rules. |
| LeftResolver.InitBindLeft | menu/cbs/menu_cbs_left.c:617-653 | A null slot gives -1. Otherwise the slot ends with the resolved handler, or with the default when nothing matched. The status is 0 exactly when some rule matched. |
| PlaylistAssociation.LastMatch | menu/cbs/menu_cbs_left.c:332-337 | The current core is the last catalog position whose path equals the associated core, or 0 when none does or the catalog is empty. |
| PlaylistAssociation.FindElem | menu/cbs/menu_cbs_left.c:349 | The playlist is found at the 1-based position of its first occurrence among the names, or 0 when absent. |
| PlaylistAssociation.AssociateLeft | menu/cbs/menu_cbs_left.c:339-357 | The cores list keeps its length. Only the entry at `found-1` can change. Nothing changes when the playlist is not listed or the catalog is empty. |
| PlaylistAssociation.AssociateLeftWrites | menu/cbs/menu_cbs_left.c:348-351 | For a listed playlist and a non-empty catalog, the entry at `found-1` becomes exactly the stepped-to core. |
| PlaylistAssociation.StepsToPreviousCore | menu/cbs/menu_cbs_left.c:339-348 | From any core but the first, one press moves to the core just before it in the catalog. |
| PlaylistAssociation.FirstCoreWrapsOrClamps | menu/cbs/menu_cbs_left.c:339-346 | From the first core, or from a core not in the catalog, one press wraps to the last core with wraparound and stays on the first core without it. |
| PlaylistAssociation.AssociationExample | menu/cbs/menu_cbs_left.c:302-363 | Worked example with three cores: step back, clamp at the first core, and wrap at the first core. |
| LeftHandlers.FastScrollSpeedGrows | menu/cbs/menu_cbs_left.c:124-125 | Below acceleration 2^31 nothing wraps. The page is `4 + 4*((max(accel,2)-2)/4 + 1)` rows: at least 8, exactly 8 up to acceleration 5, and 4 rows more for every 4 steps of acceleration. |
| LeftHandlers.PageUp | menu/cbs/menu_cbs_left.c:127-137 | A page-up move exists exactly when the cursor is more than a page below the top. The new row plus the page size is the old row, and the new row is at least 1. |
| LeftHandlers.PageUpExamples | menu/cbs/menu_cbs_left.c:124-131 | With acceleration 2, selection 10 goes to 2, and selections 8 and 5 do not move. |
| LeftHandlers.DecrementToZero | menu/cbs/menu_cbs_left.c:108-109 | A count decrements by one when positive and stays at zero otherwise; it never grows. |
| LeftHandlers.DecrementTimesSaturates | menu/cbs/menu_cbs_left.c:108-109 | `k` left presses lower a count by `k`, stopping at zero. |
| LeftHandlers.ScaleLeft | menu/cbs/menu_cbs_left.c:217-219 | The new scale is below 6. For a scale in 0..5 it is one step back around the cycle 0..5. |
| LeftHandlers.ScaleLeftTimesSteps | menu/cbs/menu_cbs_left.c:217-219 | `k` presses on a scale in 0..5 step it back `k` places modulo 6. |
| LeftHandlers.ScaleCycle | menu/cbs/menu_cbs_left.c:217-223 | Presses return a scale in 0..5 to its start exactly after a multiple of six presses. |
| LeftHandlers.FilterLeft | menu/cbs/menu_cbs_left.c:239 | The new filter is below 3. For a filter in 0..2 it is one step back around the cycle 0..2. |
| LeftHandlers.FilterLeftTimesSteps | menu/cbs/menu_cbs_left.c:239 | `k` presses on a filter in 0..2 step it back `k` places modulo 3. |
| LeftHandlers.FilterCycle | menu/cbs/menu_cbs_left.c:239 | Presses return a filter in 0..2 to its start exactly after a multiple of three presses. |
| LeftHandlers.ParameterLeft | menu/cbs/menu_cbs_left.c:50-58 | With a well-formed range, the stepped parameter lies in `[minimum, maximum]`. It is exactly `current - step` when that is in range, and the minimum when that is below it. |
| LeftHandlers.ParameterLeftDescends | menu/cbs/menu_cbs_left.c:54-56 | With a non-negative step, any number of presses keeps an in-range parameter in range and never raises it. |
| LeftHandlers.RemapCell | menu/cbs/menu_cbs_left.c:100-105 | The (user, button) cell is the quotient and remainder of the row's offset by the binds per user. |
| LeftHandlers.FindCurrentCore | menu/cbs/menu_cbs_left.c:332-337 | The loop over the catalog ends on `LastMatch`, the last matching core. |
| LeftHandlers.ScrollSpecMovesUp | menu/cbs/menu_cbs_left.c:114-140 | More than a page below the top, the cursor moves up by exactly one page, stays above row 0 and a navigation set is recorded. Within the first page a navigation clear is recorded and the selection is whatever the clear leaves (`Config.navigationClear`). In both branches nothing besides the selection and the effects changes. |
| LeftHandlers.MainmenuSwitchesIff | menu/cbs/menu_cbs_left.c:158-199 | On a one-entry list the cursor goes to row 0, and the horizontal-list cache is requested exactly when the previous list selection was not the first or wraparound is enabled. The top entry's list switch then runs, and its status is returned, exactly when it has one; otherwise the status is 0. Nothing else changes. Any other list size gives exactly the page-up handler with status 0. |
| LeftHandlers.Menu.ScrollLeft | menu/cbs/menu_cbs_left.c:114-140 | The new menu state is `ScrollSpec` of the old one, and the status is 0, also when the acceleration cannot be read. |
| LeftHandlers.Menu.MainmenuLeft | menu/cbs/menu_cbs_left.c:142-203 | The new state and status are `MainmenuSpec` of the old state. Without menu data the handler exits with nothing changed. |
| LeftHandlers.Menu.ShaderScalePassLeft | menu/cbs/menu_cbs_left.c:205-226 | The pass's scale steps back around 0..5, `scale_y` equals `scale_x`, `valid` holds exactly when the scale is non-zero, and the filter is kept. A missing pass exits with nothing changed. Without the shader manager nothing changes. |
| LeftHandlers.Menu.ShaderFilterPassLeft | menu/cbs/menu_cbs_left.c:228-242 | The pass's filter steps back around 0..2 and the rest of the pass is kept. A missing pass exits with nothing changed. |
| LeftHandlers.Menu.InputDescLeft | menu/cbs/menu_cbs_left.c:97-112 | The row's remap cell goes through the saturating decrement, and every other cell is unchanged. |
| LeftHandlers.Menu.CheatNumPassesLeft | menu/cbs/menu_cbs_left.c:259-272 | The cheat count becomes `size-1`, or 0 from 0, after a refresh is requested and population is prevented. Nothing else changes. |
| LeftHandlers.Menu.ShaderNumPassesLeft | menu/cbs/menu_cbs_left.c:274-293 | With a loaded shader, the pass count drops by one, never below zero, followed by refresh and parameter re-resolution. Without a shader it exits with nothing changed. |
| LeftHandlers.Menu.PlaylistAssociationLeft | menu/cbs/menu_cbs_left.c:302-363 | Without a core catalog it exits with nothing changed. Otherwise the cores list becomes `AssociateLeft` of the old lists and nothing else changes. |
| LeftHandlers.Menu.CheatLeft | menu/cbs/menu_cbs_left.c:89-95 | The cheat at offset `type - CHEAT_BEGIN` is toggled through the cheat manager. Nothing else changes. |
| LeftHandlers.Menu.ShaderParameterLeft | menu/cbs/menu_cbs_left.c:60-74 | The live parameter at the row's offset is stepped and clamped by `ParameterLeft`. Its range and step are kept. |
| LeftHandlers.Menu.ShaderParameterPresetLeft | menu/cbs/menu_cbs_left.c:76-86 | The preset parameter at the row's offset, if the shader manager has one, is stepped and clamped by `ParameterLeft`. Otherwise nothing changes. |
| LeftHandlers.Menu.ShaderFilterDefaultLeft | menu/cbs/menu_cbs_left.c:244-257 | A left press is handed to the video-smoothing setting. Without that setting the handler exits. Without the shader manager nothing happens. |
| LeftHandlers.Menu.VideoResolutionLeft | menu/cbs/menu_cbs_left.c:295-300 | The video driver is asked for the previous output mode. Nothing else changes. |
| LeftHandlers.Menu.CoreSettingLeft | menu/cbs/menu_cbs_left.c:365-373 | The core option at offset `type - CORE_OPTION_START` is stepped back. Nothing else changes. |
| LeftHandlers.Menu.DiskIndexLeft | menu/cbs/menu_cbs_left.c:375-380 | The previous disk image is selected. Nothing else changes. |
| LeftHandlers.Menu.GenericLeft | menu/cbs/menu_cbs_left.c:382-386 | A left press is handed to the row's setting with the row's type, label and wraparound flag. Nothing else changes. |

## Left out

- Calls into code outside this file are recorded as `Effect` tags, and their own behaviour is not modelled. This covers:
  - the menu driver's list cache and refresh requests;
  - `action_content_list_switch`;
  - the cheat toggle;
  - the setting handlers;
  - the video driver;
  - core options;
  - disk control;
  - `video_shader_resolve_parameters`.
- `MENU_NAVIGATION_CTL_CLEAR` is recorded as an effect, and the selection it leaves is the parameter `Config.navigationClear` of the old selection. Nothing is assumed about that function, because the navigation driver is not part of this model.
- `msg_hash_calculate` is a function parameter (`Config.labelHash`). `msg_hash_to_str` constants are tags. The numeric type codes, `MAX_USERS` and `RARCH_FIRST_CUSTOM_BIND + 4` are parameters, because their headers are not part of this model.
- `HAVE_SHADER_MANAGER` is a runtime flag (`Config.haveShaderManager`), not a build variant.
- `path_basename` and `menu_content_playlist_find_associated_core` are not part of this model. `PlaylistAssociationLeft` takes the playlist's file name and its associated core (if any) as parameters.
- `string_split`, `string_list_join_concat` and `strlcpy` truncation at `PATH_MAX_LENGTH` are not modelled. The playlist name and core lists are the split sequences.
- Shader parameters are floats in the source and reals here, so rounding is not modelled.
- LeftHandlers.Menu.PlaylistAssociationLeft: when the playlist's 1-based position lies past the end of the cores list, the model leaves the list unchanged. The source calls `string_list_set` at that position, and its bounds behaviour is not part of this model.
- LeftHandlers.Menu.ShaderScalePassLeft: the pass scales are unsigned integers here. In the source `scale_x` and `scale_y` are floats, and `current_scale` takes `scale_x` truncated to unsigned, so fractional scales are not represented.
- LeftHandlers.Menu.ShaderScalePassLeft: `menu_shader_manager_get_pass` is modelled as returning null without a loaded shader or past the last pass slot. Its body is not part of this model.
- LeftHandlers.Menu.ShaderParameterLeft: requires the row's offset to index an existing live parameter. The source indexes the parameter array unchecked, and its `!param` test never fails.
- LeftHandlers.Menu.InputDescLeft: requires the remap cell to lie inside `input_remap_ids`. The source indexes the array unchecked.
- LeftHandlers.Menu.CheatNumPassesLeft and LeftHandlers.Menu.ShaderNumPassesLeft: `cheat_manager_realloc` and `menu_shader_manager_decrement_amount_passes` are modelled by their effect on the count only.
- LeftHandlers.FastScrollSpeedGrows: the exact page-size formula is proved for accelerations below 2^31. Above that the unsigned product may wrap, and the model computes the wrapped value without a closed form.
- LeftHandlers.PageUp: states `1 <= new selection <= old selection` rather than strictly below. A wrapped page size of 0, possible only at accelerations near 2^32, leaves the selection where it is. `ScrollSpecMovesUp` gives the strict move below acceleration 2^31.
- PlaylistAssociation.FindElem: compares playlist names exactly, case included. `string_list_find_elem` compares case-insensitively, so a name that differs from a listed one only in letter case is found by the source and missed by the model.
- `core_info_get` is modelled as indexing the catalog of core paths, `None` outside it. The rest of `core_info_t` is not modelled.
