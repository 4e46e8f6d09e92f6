/**
 * Client code for `VisualizationMarkers`: the usage in the class docstring and
 * the documented call sequences, proved from the contracts alone.
 */
module MarkersExamples {
  import opened Errors
  import opened Arrays
  import opened MarkersConfig
  import opened Markers

  const MarkersPath: string := "/World/Visuals/testMarkers"

  /** No marker USD file exists. */
  function NoFiles(path: string): bool
  {
    false
  }

  /** Every marker USD file exists. */
  function AllFiles(path: string): bool
  {
    true
  }

  /** Two sphere prototypes, as in the class docstring. */
  function TwoSpheres(): VisualizationMarkersCfg
  {
    VisualizationMarkersCfg([("marker1", PrimMarker("Sphere")), ("marker2", PrimMarker("Sphere"))])
  }

  /** An (m, width) float array of zeros. */
  function Filled(m: nat, width: nat): (a: NdArray<Scalar>)
    ensures a.IsMatrix(width) && a.shape[0] == m
  {
    assert [m, width][1..] == [width];
    Tensor([m, width], seq(m, _ => seq(width, _ => Zero)))
  }

  /** A rank-1 integer array holding `values`. */
  function Indices(values: seq<int>): (a: NdArray<int>)
    ensures a.IsVector() && a.shape[0] == |values|
  {
    Tensor([|values|], seq(|values|, i requires 0 <= i < |values| => [values[i]]))
  }

  /** A marker group over `TwoSpheres`, as construction leaves it. */
  method NewTwoSpheres() returns (m: VisualizationMarkers)
    ensures fresh(m) && m.Valid() && m.IsVisible() && m.NumPrototypes() == 2
    ensures m.State() == InstanceState([Origin], [], [], [0], 1)
  {
    var r := VisualizationMarkers.Create(MarkersPath, TwoSpheres(), NoFiles);
    m := r.value;
  }

  /**
   * The docstring's usage: 24 translations give 24 instances of prototype 0;
   * indices alone then switch the prototypes and keep the translations.
   */
  method DocstringUsage() returns (count: nat, firstIndices: seq<int>, secondIndices: seq<int>,
                                   keptPositions: seq<seq<Scalar>>, errs: seq<Option<Error>>)
    ensures errs == [None, None, None]
    ensures keptPositions == Filled(24, 3).rows
    ensures count == 24
    ensures firstIndices == Zeros(24)
    ensures secondIndices == seq(12, _ => 0) + seq(12, _ => 1)
  {
    var m := NewTwoSpheres();
    var translations := Filled(24, 3);
    var e1 := m.Visualize(Some(translations), None, None, None);
    firstIndices := m.protoIndicesAttr;
    var indices := Indices(seq(12, _ => 0) + seq(12, _ => 1));
    var e2 := m.Visualize(None, None, None, Some(indices));
    secondIndices := m.protoIndicesAttr;
    keptPositions := m.positionsAttr;
    var e3 := m.Visualize(Some(translations), None, None, Some(indices));
    count := m.Count();
    errs := [e1, e2, e3];
  }

  /**
   * Orientations of an unchanged count keep explicit indices; fewer translations
   * reset the indices to zeros of the new count.
   */
  method CountChangesResetIndices() returns (counts: seq<nat>, kept: seq<int>, reset: seq<int>)
    ensures counts == [5, 5, 5, 3]
    ensures kept == [1, 0, 1, 0, 1]
    ensures reset == [0, 0, 0]
  {
    var m := NewTwoSpheres();
    var _ := m.Visualize(Some(Filled(5, 3)), None, None, None);
    var c1 := m.Count();
    var _ := m.Visualize(None, None, None, Some(Indices([1, 0, 1, 0, 1])));
    var c2 := m.Count();
    var _ := m.Visualize(None, Some(Filled(5, 4)), None, None);
    var c3 := m.Count();
    kept := m.protoIndicesAttr;
    var _ := m.Visualize(Some(Filled(3, 3)), None, None, None);
    var c4 := m.Count();
    reset := m.protoIndicesAttr;
    counts := [c1, c2, c3, c4];
  }

  /**
   * A call without arguments fails while instances exist; after an empty
   * `marker_indices` has brought the count to 0, the same call succeeds.
   */
  method NoArgumentsCall() returns (first: Option<Error>, second: Option<Error>, third: Option<Error>, count: nat)
    ensures first == Some(ZeroMarkers) && second == None && third == None
    ensures count == 0
  {
    var m := NewTwoSpheres();
    first := m.Visualize(None, None, None, None);
    second := m.Visualize(None, None, None, Some(Indices([])));
    third := m.Visualize(None, None, None, None);
    count := m.Count();
  }

  /** While hidden, `visualize` changes nothing; made visible again, the instancer reports so. */
  method HiddenMarkersIgnoreUpdates() returns (err: Option<Error>, count: nat, positions: seq<seq<Scalar>>, visible: bool)
    ensures err == None && count == 1 && positions == [Origin] && visible
  {
    var m := NewTwoSpheres();
    m.SetVisibility(false);
    err := m.Visualize(Some(Filled(5, 3)), None, None, Some(Indices([0, 1, 0, 1, 0])));
    count := m.Count();
    positions := m.positionsAttr;
    m.SetVisibility(true);
    visible := m.IsVisible();
  }

  /**
   * Orientations of shape (4, 3) are rejected with their shape; the translations
   * checked before them stay written, and the count stays.
   */
  method WrongOrientationWidth() returns (err: Option<Error>, positions: seq<seq<Scalar>>, count: nat)
    ensures err == Some(BadShape(Orientations, [4, 3]))
    ensures |positions| == 2 && count == 1
  {
    var m := NewTwoSpheres();
    err := m.Visualize(Some(Filled(2, 3)), Some(Filled(4, 3)), None, None);
    positions := m.positionsAttr;
    count := m.Count();
  }

  /** Each construction error, in the order the checks run. */
  method ConstructionErrors() returns (errs: seq<Error>)
    ensures errs == [EmptyMarkers, XformNeedsFileMarker, UsdFileNotFound("frame.usd"), FileMarkerNotXform("Sphere")]
  {
    var r1 := VisualizationMarkers.Create(MarkersPath, VisualizationMarkersCfg([]), AllFiles);
    var r2 := VisualizationMarkers.Create(MarkersPath, VisualizationMarkersCfg([("frame", PrimMarker("Xform"))]), AllFiles);
    // the missing file is reported before the wrong prim type
    var r3 := VisualizationMarkers.Create(MarkersPath, VisualizationMarkersCfg([("frame", FileMarker("Sphere", "frame.usd"))]), NoFiles);
    var r4 := VisualizationMarkers.Create(MarkersPath, VisualizationMarkersCfg([("frame", FileMarker("Sphere", "frame.usd"))]), AllFiles);
    errs := [r1.error, r2.error, r3.error, r4.error];
  }

  /** A file marker of prim type `Xform` whose file exists becomes prototype 0, named after its key. */
  method FileMarkerAccepted() returns (targets: seq<string>)
    ensures targets == ["/World/Visuals/testMarkers/frame"]
  {
    var cfg := VisualizationMarkersCfg([("frame", FileMarker("Xform", "frame.usd"))]);
    var r := VisualizationMarkers.Create(MarkersPath, cfg, AllFiles);
    targets := r.value.prototypesRel;
    assert RegisteredInOrder(MarkersPath, cfg.markers, targets);
    assert targets[0] == PrototypePath(MarkersPath, "frame") == "/World/Visuals/testMarkers/frame";
  }
}
