/**
 * The marker configuration (`VisualizationMarkersCfg`) and what the marker
 * group does with it at construction: the per-prototype validation of
 * `_add_markers_prototypes` and the dictionary order that fixes prototype indices.
 */
module MarkersConfig {
  import opened Errors

  /** USD's empty container prim type. */
  const Xform: string := "Xform"

  /**
   * A marker prototype config. `FileMarkerCfg` is a subclass of `MarkerCfg` in the
   * source; the closed variant here replaces the `isinstance` test. Only the fields
   * that validation reads are kept.
   */
  datatype MarkerCfg =
    | PrimMarker(primType: string)
    | FileMarker(primType: string, usdPath: string)

  /** Dictionary keys are unique. */
  predicate DistinctNames(markers: seq<(string, MarkerCfg)>)
  {
    forall i, j :: 0 <= i < j < |markers| ==> markers[i].0 != markers[j].0
  }

  /** `dict[str, MarkerCfg]`, in its insertion order. */
  type MarkerDict = m: seq<(string, MarkerCfg)> | DistinctNames(m)

  datatype VisualizationMarkersCfg = VisualizationMarkersCfg(markers: MarkerDict)

  /** A marker is either a native shape or a file-backed `Xform`, never an empty container. */
  predicate KindMatchesSource(cfg: MarkerCfg)
  {
    match cfg
    case PrimMarker(primType) => primType != Xform
    case FileMarker(primType, _) => primType == Xform
  }

  /**
   * The checks of one prototype config, in the source's order; `None` when it is
   * accepted. `fileExists` stands for `check_file_path`.
   */
  function CheckMarker(cfg: MarkerCfg, fileExists: string -> bool): (r: Option<Error>)
    ensures r.None? <==> KindMatchesSource(cfg) && (cfg.FileMarker? ==> fileExists(cfg.usdPath))
    ensures cfg.PrimMarker? && cfg.primType == Xform ==> r == Some(XformNeedsFileMarker)
    // the file check comes first, whatever the prim type
    ensures cfg.FileMarker? && !fileExists(cfg.usdPath) ==> r == Some(UsdFileNotFound(cfg.usdPath))
    ensures (cfg.FileMarker? && fileExists(cfg.usdPath) && cfg.primType != Xform)
              ==> r == Some(FileMarkerNotXform(cfg.primType))
  {
    match cfg
    case PrimMarker(primType) =>
      if primType == Xform then Some(XformNeedsFileMarker) else None
    case FileMarker(primType, usdPath) =>
      if !fileExists(usdPath) then Some(UsdFileNotFound(usdPath))
      else if primType != Xform then Some(FileMarkerNotXform(primType))
      else None
  }

  /** How many configs, from the front, pass their checks before the first that fails. */
  function AcceptedPrefix(markers: seq<(string, MarkerCfg)>, fileExists: string -> bool): (k: nat)
    ensures k <= |markers|
    ensures forall i :: 0 <= i < k ==> CheckMarker(markers[i].1, fileExists).None?
    ensures k < |markers| ==> CheckMarker(markers[k].1, fileExists).Some?
  {
    if markers == [] || CheckMarker(markers[0].1, fileExists).Some? then 0
    else 1 + AcceptedPrefix(markers[1..], fileExists)
  }

  /** The exception the prototype loop raises, if any: that of the first rejected config. */
  function FirstError(markers: seq<(string, MarkerCfg)>, fileExists: string -> bool): (r: Option<Error>)
    ensures r.None? <==> forall i :: 0 <= i < |markers| ==> CheckMarker(markers[i].1, fileExists).None?
    ensures r.Some? ==>
              exists k :: 0 <= k < |markers| && r == CheckMarker(markers[k].1, fileExists)
                          && forall j :: 0 <= j < k ==> CheckMarker(markers[j].1, fileExists).None?
  {
    var k := AcceptedPrefix(markers, fileExists);
    if k < |markers| then CheckMarker(markers[k].1, fileExists) else None
  }

  /** `f"{prim_path}/{name}"`: where the prototype prim of marker `name` lives. */
  function PrototypePath(primPath: string, name: string): string
  {
    primPath + "/" + name
  }

  /** Every config in the dictionary passes the prim-type pairing rule. */
  predicate AllKindsMatchSource(markers: seq<(string, MarkerCfg)>)
  {
    forall i :: 0 <= i < |markers| ==> KindMatchesSource(markers[i].1)
  }

  /** `targets` holds one prototype path per marker, in dictionary order. */
  predicate RegisteredInOrder(primPath: string, markers: seq<(string, MarkerCfg)>, targets: seq<string>)
  {
    && |targets| == |markers|
    && forall i :: 0 <= i < |markers| ==> targets[i] == PrototypePath(primPath, markers[i].0)
  }

  /** Different marker names give different prototype paths under one instancer. */
  lemma PrototypePathInjective(primPath: string, a: string, b: string)
    ensures PrototypePath(primPath, a) == PrototypePath(primPath, b) <==> a == b
  {
    if PrototypePath(primPath, a) == PrototypePath(primPath, b) {
      assert a == PrototypePath(primPath, a)[|primPath| + 1..];
      assert b == PrototypePath(primPath, b)[|primPath| + 1..];
    }
  }

  /**
   * Prototype targets are registered in dictionary order, so the prototype index
   * `i` selects the i-th key's prim and no other index selects it.
   */
  lemma PrototypeIndexUnique(primPath: string, markers: MarkerDict, i: nat, j: nat)
    requires i < |markers| && j < |markers|
    ensures PrototypePath(primPath, markers[i].0) == PrototypePath(primPath, markers[j].0) <==> i == j
  {
    PrototypePathInjective(primPath, markers[i].0, markers[j].0);
    if i < j {
      assert markers[i].0 != markers[j].0;
    } else if j < i {
      assert markers[j].0 != markers[i].0;
    }
  }
}
