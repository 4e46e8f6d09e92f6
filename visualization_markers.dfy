/**
 * The bookkeeping of `VisualizationMarkers`: a group of marker instances drawn
 * through one USD PointInstancer. The instancer's attributes are fields of the
 * class; every USD call that only creates prims or sets materials is left out.
 */
module Markers {
  import opened Errors
  import opened Arrays
  import opened MarkersConfig

  /** The two values of USD's `visibility` token attribute. */
  datatype Visibility = Inherited | Invisible

  /** A supplied float argument has shape (M, width); an absent one is fine. */
  predicate MatrixOk(a: Option<NdArray<Scalar>>, width: nat)
  {
    a.None? || a.value.IsMatrix(width)
  }

  /** A supplied `marker_indices` has shape (M,); an absent one is fine. */
  predicate IndicesOk(a: Option<NdArray<int>>)
  {
    a.None? || a.value.IsVector()
  }

  /** The float arguments pass their checks, each on its own. */
  predicate PosesOk(translations: Option<NdArray<Scalar>>, orientations: Option<NdArray<Scalar>>,
                    scales: Option<NdArray<Scalar>>)
  {
    MatrixOk(translations, 3) && MatrixOk(orientations, 4) && MatrixOk(scales, 3)
  }

  /**
   * The leading dimension of the last float argument supplied, in the order
   * translations, orientations, scales; 0 if none is.
   */
  function PoseCount(translations: Option<NdArray<Scalar>>, orientations: Option<NdArray<Scalar>>,
                     scales: Option<NdArray<Scalar>>): nat
    requires PosesOk(translations, orientations, scales)
  {
    if scales.Some? then scales.value.shape[0]
    else if orientations.Some? then orientations.value.shape[0]
    else if translations.Some? then translations.value.shape[0]
    else 0
  }

  /**
   * The per-instance attributes `visualize` may rewrite, with the tracked count.
   * Orientations are stored (x, y, z, w).
   */
  datatype InstanceState = InstanceState(
    positions: seq<seq<Scalar>>,
    orientations: seq<seq<Scalar>>,
    scales: seq<seq<Scalar>>,
    protoIndices: seq<int>,
    count: nat)
  {
    /** Every row has its width; the tracked count is USD's instance count, the number of proto indices. */
    predicate Invariant()
    {
      && RowsOfWidth(positions, 3)
      && RowsOfWidth(orientations, 4)
      && RowsOfWidth(scales, 3)
      && count == |protoIndices|
    }
  }

  /** What `visualize` leaves behind: the new state, and the exception raised if any. */
  datatype Outcome = Outcome(state: InstanceState, error: Option<Error>)

  /**
   * `visualize` on the instancer state `st`, step by step as the source runs it:
   * `n1`..`n3` are the successive values of `num_markers`, `st1`..`st3` the state
   * after each guarded block. An exception leaves the blocks before it applied.
   */
  function Visualized(st: InstanceState, visible: bool,
                      translations: Option<NdArray<Scalar>>, orientations: Option<NdArray<Scalar>>,
                      scales: Option<NdArray<Scalar>>, markerIndices: Option<NdArray<int>>): Outcome
  {
    if !visible then Outcome(st, None)
    else if !MatrixOk(translations, 3) then Outcome(st, Some(BadShape(Translations, translations.value.shape)))
    else
      var st1 := if translations.Some? then st.(positions := MatrixRows(translations.value, 3)) else st;
      var n1 := if translations.Some? then translations.value.shape[0] else 0;
      if !MatrixOk(orientations, 4) then Outcome(st1, Some(BadShape(Orientations, orientations.value.shape)))
      else
        var st2 := if orientations.Some? then st1.(orientations := ToXyzw(MatrixRows(orientations.value, 4))) else st1;
        var n2 := if orientations.Some? then orientations.value.shape[0] else n1;
        if !MatrixOk(scales, 3) then Outcome(st2, Some(BadShape(Scales, scales.value.shape)))
        else
          var st3 := if scales.Some? then st2.(scales := MatrixRows(scales.value, 3)) else st2;
          var n3 := if scales.Some? then scales.value.shape[0] else n2;
          if markerIndices.Some? then
            if !markerIndices.value.IsVector() then
              Outcome(st3, Some(BadShape(MarkerIndices, markerIndices.value.shape)))
            else
              Outcome(st3.(protoIndices := VectorValues(markerIndices.value), count := markerIndices.value.shape[0]), None)
          else if n3 != st.count then
            if n3 == 0 then Outcome(st3, Some(ZeroMarkers))
            else Outcome(st3.(protoIndices := Zeros(n3), count := n3), None)
          else Outcome(st3.(count := n3), None)
  }

  class VisualizationMarkers {
    /** The resolved path of the PointInstancer prim. */
    const primPath: string
    const cfg: VisualizationMarkersCfg
    /** The instancer's `visibility` attribute. */
    var visibilityAttr: Visibility
    /** The instancer's `prototypes` relationship: one target path per prototype. */
    var prototypesRel: seq<string>
    /** The instancer's per-instance attributes; orientations are stored (x, y, z, w). */
    var positionsAttr: seq<seq<Scalar>>
    var orientationsAttr: seq<seq<Scalar>>
    var scalesAttr: seq<seq<Scalar>>
    var protoIndicesAttr: seq<int>
    /** `_count`: the self-tracked number of instances. */
    var count: nat

    /**
     * The object invariant of a constructed marker group: a non-empty, well-paired
     * config whose prototypes are registered in dictionary order, and per-instance
     * attributes that keep `InstanceState.Invariant`.
     */
    ghost predicate Valid()
      reads this
    {
      && |cfg.markers| > 0
      && AllKindsMatchSource(cfg.markers)
      && RegisteredInOrder(primPath, cfg.markers, prototypesRel)
      && State().Invariant()
    }

    /** `define_prim(prim_path, "PointInstancer")`: a fresh, empty, visible instancer. */
    constructor Define(primPath: string, cfg: VisualizationMarkersCfg)
      ensures this.primPath == primPath && this.cfg == cfg
      ensures visibilityAttr == Inherited && prototypesRel == []
      ensures positionsAttr == [] && orientationsAttr == [] && scalesAttr == [] && protoIndicesAttr == []
      ensures count == 0
    {
      this.primPath := primPath;
      this.cfg := cfg;
      visibilityAttr := Inherited;
      prototypesRel := [];
      positionsAttr, orientationsAttr, scalesAttr, protoIndicesAttr := [], [], [], [];
      count := 0;
    }

    /**
     * `__init__`: builds the marker group, or reports the exception it raises.
     * `primPath` is the path `get_next_free_path` already resolved; `fileExists`
     * stands for `check_file_path`.
     */
    static method Create(primPath: string, cfg: VisualizationMarkersCfg, fileExists: string -> bool)
      returns (r: Result<VisualizationMarkers, Error>)
      ensures |cfg.markers| == 0 ==> r == Failure(EmptyMarkers)
      ensures |cfg.markers| > 0 && FirstError(cfg.markers, fileExists).Some? ==>
                r == Failure(FirstError(cfg.markers, fileExists).value)
      ensures r.Success? <==> |cfg.markers| > 0 && FirstError(cfg.markers, fileExists).None?
      ensures r.Success? ==>
                && fresh(r.value) && r.value.Valid()
                && r.value.primPath == primPath && r.value.cfg == cfg
                && r.value.IsVisible() && r.value.NumPrototypes() == |cfg.markers|
                && r.value.protoIndicesAttr == [0] && r.value.positionsAttr == [Origin]
                && r.value.orientationsAttr == [] && r.value.scalesAttr == []
                && r.value.Count() == 1
    {
      var m := new VisualizationMarkers.Define(primPath, cfg);
      if |cfg.markers| == 0 {
        return Failure(EmptyMarkers);
      }
      var err := m.AddMarkersPrototypes(cfg.markers, fileExists);
      if err.Some? {
        return Failure(err.value);
      }
      // seed one instance of prototype 0 at the origin so the instancer shows
      m.protoIndicesAttr := [0];
      m.positionsAttr := [Origin];
      m.count := 1;
      r := Success(m);
    }

    /**
     * `_add_markers_prototypes`: validates each config in dictionary order and
     * appends its prim path to the prototypes relationship, stopping at the first
     * config it rejects. Private in the source: only `Create` calls it, on a newly
     * defined instancer; called again on a constructed group it would register the
     * prototypes twice and break `Valid()`.
     */
    method AddMarkersPrototypes(markers: MarkerDict, fileExists: string -> bool) returns (err: Option<Error>)
      modifies this`prototypesRel
      ensures err == FirstError(markers, fileExists)
      ensures var k := AcceptedPrefix(markers, fileExists);
              && |prototypesRel| == |old(prototypesRel)| + k
              && prototypesRel[..|old(prototypesRel)|] == old(prototypesRel)
              && forall i :: 0 <= i < k ==>
                   prototypesRel[|old(prototypesRel)| + i] == PrototypePath(primPath, markers[i].0)
    {
      var i := 0;
      while i < |markers|
        invariant 0 <= i <= |markers|
        invariant forall j :: 0 <= j < i ==> CheckMarker(markers[j].1, fileExists).None?
        invariant |prototypesRel| == |old(prototypesRel)| + i
        invariant prototypesRel[..|old(prototypesRel)|] == old(prototypesRel)
        invariant forall j :: 0 <= j < i ==>
                    prototypesRel[|old(prototypesRel)| + j] == PrototypePath(primPath, markers[j].0)
      {
        var (name, markerCfg) := markers[i];
        err := CheckMarker(markerCfg, fileExists);
        if err.Some? {
          return;
        }
        prototypesRel := prototypesRel + [PrototypePath(primPath, name)];
        i := i + 1;
      }
      err := None;
    }

    /** `num_prototypes`: one prototype per configured marker. */
    function NumPrototypes(): (n: nat)
      reads this
      requires Valid()
      ensures n == |prototypesRel| && n > 0
    {
      |cfg.markers|
    }

    /** `count`: the tracked count, which equals the instancer's own instance count. */
    function Count(): (n: nat)
      reads this
      requires Valid()
      ensures n == |protoIndicesAttr|
    {
      count
    }

    /** `is_visible`: true unless the attribute holds the `invisible` token. */
    function IsVisible(): (b: bool)
      reads this`visibilityAttr
      ensures b <==> visibilityAttr == Inherited
    {
      visibilityAttr != Invisible
    }

    /** `set_visibility`: `MakeVisible` or `MakeInvisible` on the instancer. */
    method SetVisibility(visible: bool)
      requires Valid()
      modifies this`visibilityAttr
      ensures Valid()
      ensures IsVisible() == visible
    {
      visibilityAttr := if visible then Inherited else Invisible;
    }

    /** The attributes `visualize` may rewrite, with the tracked count. */
    function State(): InstanceState
      reads this`positionsAttr, this`orientationsAttr, this`scalesAttr, this`protoIndicesAttr, this`count
    {
      InstanceState(positionsAttr, orientationsAttr, scalesAttr, protoIndicesAttr, count)
    }

    /**
     * `visualize`: replaces each supplied per-instance array in full and updates
     * the tracked count; `Some(e)` is the exception raised. Arrays written before
     * a failing check stay written.
     */
    method Visualize(translations: Option<NdArray<Scalar>>, orientations: Option<NdArray<Scalar>>,
                     scales: Option<NdArray<Scalar>>, markerIndices: Option<NdArray<int>>)
      returns (err: Option<Error>)
      requires Valid()
      modifies this`positionsAttr, this`orientationsAttr, this`scalesAttr, this`protoIndicesAttr, this`count
      ensures Outcome(State(), err)
              == Visualized(old(State()), old(IsVisible()), translations, orientations, scales, markerIndices)
      ensures Valid()
    {
      VisualizeKeepsInvariant(State(), IsVisible(), translations, orientations, scales, markerIndices);
      if !IsVisible() {
        return None;
      }
      var numMarkers := 0;
      if translations.Some? {
        if !translations.value.IsMatrix(3) {
          return Some(BadShape(Translations, translations.value.shape));
        }
        positionsAttr := MatrixRows(translations.value, 3);
        numMarkers := translations.value.shape[0];
      }
      if orientations.Some? {
        if !orientations.value.IsMatrix(4) {
          return Some(BadShape(Orientations, orientations.value.shape));
        }
        orientationsAttr := ToXyzw(MatrixRows(orientations.value, 4));
        numMarkers := orientations.value.shape[0];
      }
      if scales.Some? {
        if !scales.value.IsMatrix(3) {
          return Some(BadShape(Scales, scales.value.shape));
        }
        scalesAttr := MatrixRows(scales.value, 3);
        numMarkers := scales.value.shape[0];
      }
      if markerIndices.Some? || numMarkers != count {
        if markerIndices.Some? {
          if !markerIndices.value.IsVector() {
            return Some(BadShape(MarkerIndices, markerIndices.value.shape));
          }
          protoIndicesAttr := VectorValues(markerIndices.value);
          numMarkers := markerIndices.value.shape[0];
        } else {
          if numMarkers == 0 {
            return Some(ZeroMarkers);
          }
          protoIndicesAttr := Zeros(numMarkers);
        }
      }
      count := numMarkers;
      err := None;
    }
  }

  /** `visualize` keeps the instance-state invariant, whatever its arguments and outcome. */
  lemma VisualizeKeepsInvariant(st: InstanceState, visible: bool,
                                translations: Option<NdArray<Scalar>>, orientations: Option<NdArray<Scalar>>,
                                scales: Option<NdArray<Scalar>>, markerIndices: Option<NdArray<int>>)
    requires st.Invariant()
    ensures Visualized(st, visible, translations, orientations, scales, markerIndices).state.Invariant()
  {
  }

  /** A hidden instancer: `visualize` returns at once and changes nothing. */
  lemma HiddenVisualizeIsNoOp(st: InstanceState,
                              translations: Option<NdArray<Scalar>>, orientations: Option<NdArray<Scalar>>,
                              scales: Option<NdArray<Scalar>>, markerIndices: Option<NdArray<int>>)
    ensures Visualized(st, false, translations, orientations, scales, markerIndices) == Outcome(st, None)
  {
  }

  /**
   * Each argument is checked on its own; the error names the first argument, in
   * the order translations, orientations, scales, marker_indices, that fails its
   * check, with the shape it was given.
   */
  lemma ShapeErrorNamesFirstBadArgument(st: InstanceState,
                                        translations: Option<NdArray<Scalar>>, orientations: Option<NdArray<Scalar>>,
                                        scales: Option<NdArray<Scalar>>, markerIndices: Option<NdArray<int>>)
    ensures var r := Visualized(st, true, translations, orientations, scales, markerIndices);
      && (!MatrixOk(translations, 3) ==> r.error == Some(BadShape(Translations, translations.value.shape)))
      && (MatrixOk(translations, 3) && !MatrixOk(orientations, 4) ==>
            r.error == Some(BadShape(Orientations, orientations.value.shape)))
      && (MatrixOk(translations, 3) && MatrixOk(orientations, 4) && !MatrixOk(scales, 3) ==>
            r.error == Some(BadShape(Scales, scales.value.shape)))
      && (PosesOk(translations, orientations, scales) && !IndicesOk(markerIndices) ==>
            r.error == Some(BadShape(MarkerIndices, markerIndices.value.shape)))
  {
  }

  /**
   * `visualize` raises exactly when an argument has a bad shape, or when it gets
   * no indices and nothing to count while instances exist.
   */
  lemma VisualizeFailsExactly(st: InstanceState, visible: bool,
                              translations: Option<NdArray<Scalar>>, orientations: Option<NdArray<Scalar>>,
                              scales: Option<NdArray<Scalar>>, markerIndices: Option<NdArray<int>>)
    ensures var r := Visualized(st, visible, translations, orientations, scales, markerIndices);
      && (r.error.None? <==>
            || !visible
            || (&& PosesOk(translations, orientations, scales) && IndicesOk(markerIndices)
                && !(markerIndices.None? && PoseCount(translations, orientations, scales) == 0 && st.count != 0)))
      // the one failure that is not a shape error
      && ((&& visible && PosesOk(translations, orientations, scales) && markerIndices.None?
           && PoseCount(translations, orientations, scales) == 0 && st.count != 0)
          ==> r.error == Some(ZeroMarkers))
  {
  }

  /** An exception leaves the tracked count and the proto indices as they were. */
  lemma ErrorKeepsCountAndIndices(st: InstanceState, visible: bool,
                                  translations: Option<NdArray<Scalar>>, orientations: Option<NdArray<Scalar>>,
                                  scales: Option<NdArray<Scalar>>, markerIndices: Option<NdArray<int>>)
    ensures var r := Visualized(st, visible, translations, orientations, scales, markerIndices);
      r.error.Some? ==> r.state.count == st.count && r.state.protoIndices == st.protoIndices
  {
  }

  /**
   * Each float array is replaced in full by its argument once its own check is
   * reached and passed, even if a later check fails; otherwise it is untouched.
   */
  lemma EachArrayReplacedOnceReached(st: InstanceState, visible: bool,
                                     translations: Option<NdArray<Scalar>>, orientations: Option<NdArray<Scalar>>,
                                     scales: Option<NdArray<Scalar>>, markerIndices: Option<NdArray<int>>)
    ensures var r := Visualized(st, visible, translations, orientations, scales, markerIndices);
      && r.state.positions ==
           (if visible && translations.Some? && MatrixOk(translations, 3)
            then translations.value.rows else st.positions)
      && r.state.orientations ==
           (if visible && MatrixOk(translations, 3) && orientations.Some? && MatrixOk(orientations, 4)
            then ToXyzw(MatrixRows(orientations.value, 4)) else st.orientations)
      && r.state.scales ==
           (if visible && MatrixOk(translations, 3) && MatrixOk(orientations, 4) && scales.Some? && MatrixOk(scales, 3)
            then scales.value.rows else st.scales)
  {
  }

  /**
   * The stored orientations are the input quaternions with (w, x, y, z) reordered
   * to (x, y, z, w), row by row, and reordering them back gives the input.
   */
  lemma OrientationsStoredAsXyzw(st: InstanceState, translations: Option<NdArray<Scalar>>,
                                 orientations: NdArray<Scalar>, scales: Option<NdArray<Scalar>>,
                                 markerIndices: Option<NdArray<int>>)
    requires MatrixOk(translations, 3) && orientations.IsMatrix(4)
    ensures var stored := Visualized(st, true, translations, Some(orientations), scales, markerIndices).state.orientations;
      && |stored| == orientations.shape[0]
      && (forall i :: 0 <= i < |stored| ==>
            stored[i] == [orientations.rows[i][1], orientations.rows[i][2], orientations.rows[i][3], orientations.rows[i][0]])
      && RowsOfWidth(stored, 4) && ToWxyz(stored) == orientations.rows
  {
    var rows := MatrixRows(orientations, 4);
    OrientationRoundTrip(rows);
    EachArrayReplacedOnceReached(st, true, translations, Some(orientations), scales, markerIndices);
  }

  /**
   * After a successful visible call the count is the leading dimension of the last
   * supplied argument, in the order translations, orientations, scales,
   * marker_indices; with no argument it stays, and then it was already 0.
   */
  lemma CountIsLastSupplied(st: InstanceState,
                            translations: Option<NdArray<Scalar>>, orientations: Option<NdArray<Scalar>>,
                            scales: Option<NdArray<Scalar>>, markerIndices: Option<NdArray<int>>)
    ensures var r := Visualized(st, true, translations, orientations, scales, markerIndices);
      r.error.None? ==>
        && (markerIndices.Some? ==> r.state.count == markerIndices.value.shape[0])
        && (markerIndices.None? && scales.Some? ==> r.state.count == scales.value.shape[0])
        && (markerIndices.None? && scales.None? && orientations.Some? ==>
              r.state.count == orientations.value.shape[0])
        && (markerIndices.None? && scales.None? && orientations.None? && translations.Some? ==>
              r.state.count == translations.value.shape[0])
        && (markerIndices.None? && scales.None? && orientations.None? && translations.None? ==>
              r.state.count == st.count == 0)
  {
  }

  /**
   * Proto indices, once every shape check passed: stored verbatim when given;
   * without them, kept if the count is unchanged and reset to that many zeros if
   * it changed to a non-zero value.
   */
  lemma ProtoIndicesRules(st: InstanceState,
                          translations: Option<NdArray<Scalar>>, orientations: Option<NdArray<Scalar>>,
                          scales: Option<NdArray<Scalar>>, markerIndices: Option<NdArray<int>>)
    requires PosesOk(translations, orientations, scales) && IndicesOk(markerIndices)
    ensures var r := Visualized(st, true, translations, orientations, scales, markerIndices);
      var n := PoseCount(translations, orientations, scales);
      && (markerIndices.Some? ==>
            && |r.state.protoIndices| == markerIndices.value.shape[0]
            && forall i :: 0 <= i < |r.state.protoIndices| ==> markerIndices.value.rows[i] == [r.state.protoIndices[i]])
      && (markerIndices.None? && n == st.count ==> r.state.protoIndices == st.protoIndices)
      && (markerIndices.None? && n != st.count && n != 0 ==>
            r.state.protoIndices == Zeros(n) && r.state.count == n)
  {
  }

  /**
   * A call with no argument at all raises the zero-count error while instances
   * exist; once the count is 0 (reachable through an empty `marker_indices`) it
   * succeeds and changes nothing.
   */
  lemma AllNoneCall(st: InstanceState)
    ensures Visualized(st, true, None, None, None, None)
            == if st.count != 0 then Outcome(st, Some(ZeroMarkers)) else Outcome(st, None)
  {
  }
}
