/**
 * The value-level specification of `playlist_association_left`
 * (menu/cbs/menu_cbs_left.c): step the core associated with one playlist back
 * by one place in the catalog of installed cores.
 *
 * The settings store keeps the associations as two parallel lists, playlist
 * names and core paths, each joined with ';'. Here both are the split
 * sequences; splitting and joining are not modelled.
 */
module PlaylistAssociation {
  import opened MenuTypes

  /** `file_path_str(FILE_PATH_DETECT)`: the core path used when a playlist has no association. */
  const DetectCorePath: string := "DETECT"

  /**
   * The catalog position the loop over the cores ends with: the LAST core whose
   * path equals `corePath` (the loop has no `break`), or 0 when none does.
   */
  function LastMatch(catalog: seq<string>, corePath: string): (current: nat)
    ensures |catalog| == 0 ==> current == 0
    ensures |catalog| > 0 ==> current < |catalog|
    ensures (forall j :: 0 <= j < |catalog| ==> catalog[j] != corePath) ==> current == 0
    ensures (exists j :: 0 <= j < |catalog| && catalog[j] == corePath) ==>
              catalog[current] == corePath
              && forall j :: current < j < |catalog| ==> catalog[j] != corePath
  {
    if |catalog| == 0 then 0
    else if catalog[|catalog| - 1] == corePath then |catalog| - 1
    else
      var prefix := catalog[..|catalog| - 1];
      assert forall j :: 0 <= j < |prefix| ==> prefix[j] == catalog[j];
      LastMatch(prefix, corePath)
  }

  /**
   * `string_list_find_elem`: the 1-based position of the first element equal
   * to `s`, or 0 when there is none.
   */
  function FindElem(list: seq<string>, s: string): (found: nat)
    ensures found <= |list|
    ensures found > 0 ==> list[found - 1] == s && forall j :: 0 <= j < found - 1 ==> list[j] != s
    ensures found == 0 ==> forall j :: 0 <= j < |list| ==> list[j] != s
  {
    if |list| == 0 then 0
    else if list[0] == s then 1
    else
      var f := FindElem(list[1..], s);
      assert forall j :: 1 <= j < |list| ==> list[j] == list[1..][j - 1];
      if f == 0 then 0 else f + 1
  }

  /**
   * The catalog position one step before `current`; below the first core it
   * wraps to the last one when `wraparound` is set and stays at 0 otherwise.
   * With an empty catalog and `wraparound` the result is -1 (`(int)(count - 1)`).
   */
  function StepBack(current: nat, count: nat, wraparound: bool): int {
    var next := current - 1;
    if next < 0 then (if wraparound then count - 1 else 0) else next
  }

  /**
   * `core_info_get(list, next)`: the path of the catalog entry at `next`, or
   * `None` when `next` is outside the catalog.
   */
  function CoreAt(catalog: seq<string>, next: int): Option<string> {
    if 0 <= next < |catalog| then Some(catalog[next]) else None
  }

  /** The catalog position the handler writes for a playlist whose associated core is `corePath`. */
  function NextCoreIndex(catalog: seq<string>, corePath: string, wraparound: bool): int {
    StepBack(LastMatch(catalog, corePath), |catalog|, wraparound)
  }

  /**
   * The cores list after one left press on playlist `name`: only the entry of
   * `name`'s position is replaced, and only when `name` is listed and the
   * stepped-to core exists.
   */
  function AssociateLeft(names: seq<string>, cores: seq<string>, catalog: seq<string>,
                         name: string, associated: Option<string>, wraparound: bool)
    : (newCores: seq<string>)
    ensures |newCores| == |cores|
    ensures forall k :: 0 <= k < |cores| && k != FindElem(names, name) - 1 ==> newCores[k] == cores[k]
    ensures FindElem(names, name) == 0 || |catalog| == 0 ==> newCores == cores
  {
    var corePath := associated.GetOr(DetectCorePath);
    var info := CoreAt(catalog, NextCoreIndex(catalog, corePath, wraparound));
    var found := FindElem(names, name);
    if found > 0 && info.Some? && found - 1 < |cores| then cores[found - 1 := info.value]
    else cores
  }

  /** The association written for a listed playlist, when it is written at all. */
  function WrittenCore(catalog: seq<string>, associated: Option<string>, wraparound: bool): Option<string> {
    CoreAt(catalog, NextCoreIndex(catalog, associated.GetOr(DetectCorePath), wraparound))
  }

  /** A listed playlist gets exactly the stepped-to core. */
  lemma AssociateLeftWrites(names: seq<string>, cores: seq<string>, catalog: seq<string>,
                            name: string, associated: Option<string>, wraparound: bool)
    requires 0 < FindElem(names, name) <= |cores|
    requires |catalog| > 0
    ensures WrittenCore(catalog, associated, wraparound).Some?
    ensures AssociateLeft(names, cores, catalog, name, associated, wraparound)[FindElem(names, name) - 1]
            == WrittenCore(catalog, associated, wraparound).value
  {
  }

  /** From a core other than the first, one left press moves to the core just before it. */
  lemma StepsToPreviousCore(catalog: seq<string>, corePath: string, c: nat, wraparound: bool)
    requires 0 < c < |catalog| && catalog[c] == corePath
    requires forall j :: c < j < |catalog| ==> catalog[j] != corePath
    ensures WrittenCore(catalog, Some(corePath), wraparound) == Some(catalog[c - 1])
  {
    assert LastMatch(catalog, corePath) == c;
  }

  /**
   * From the first core, or from a core not in the catalog, one left press
   * wraps to the last core when `wraparound` is set and stays on the first
   * core otherwise.
   */
  lemma FirstCoreWrapsOrClamps(catalog: seq<string>, corePath: string, wraparound: bool)
    requires |catalog| > 0
    requires catalog[0] == corePath || forall j :: 0 <= j < |catalog| ==> catalog[j] != corePath
    requires forall j :: 0 < j < |catalog| ==> catalog[j] != corePath
    ensures WrittenCore(catalog, Some(corePath), wraparound)
            == Some(if wraparound then catalog[|catalog| - 1] else catalog[0])
  {
    assert LastMatch(catalog, corePath) == 0;
  }

  /** The worked example: two playlists, three installed cores. */
  lemma AssociationExample()
    ensures AssociateLeft(["Game A", "Game B"], ["coreX", "coreY"], ["coreW", "coreX", "coreY"],
                          "Game A", Some("coreX"), false) == ["coreW", "coreY"]
    ensures AssociateLeft(["Game A", "Game B"], ["coreW", "coreY"], ["coreW", "coreX", "coreY"],
                          "Game A", Some("coreW"), false) == ["coreW", "coreY"]
    ensures AssociateLeft(["Game A", "Game B"], ["coreW", "coreY"], ["coreW", "coreX", "coreY"],
                          "Game A", Some("coreW"), true) == ["coreY", "coreY"]
  {
    var catalog := ["coreW", "coreX", "coreY"];
    StepsToPreviousCore(catalog, "coreX", 1, false);
    FirstCoreWrapsOrClamps(catalog, "coreW", false);
    FirstCoreWrapsOrClamps(catalog, "coreW", true);
    assert FindElem(["Game A", "Game B"], "Game A") == 1;
  }
}
