/** The cluster map (components/MapCluster.tsx): the load-status machine around
    the cluster fetch, the cluster/markers view mode with its active cluster, and
    the zoom transform that centres the active cluster. */
module MapCluster {
  import opened Wrappers
  import opened Seqs

  datatype Status = Idle | Loading | Error | Empty | Ready

  datatype ViewMode = ClusterMode | MarkersMode

  datatype SubPoint = SubPoint(id: string, status: string)

  /** A cluster; its position is in percent of the map. */
  datatype ClusterNode = ClusterNode(id: string, x: int, y: int, count: int, status: string, subPoints: Option<seq<SubPoint>>)

  /** What `fetchClusterMapData()` produced: data (possibly `null`) or a rejection. */
  datatype FetchOutcome = Fetched(data: Option<seq<ClusterNode>>) | Failed

  /** `translate(offsetX%, offsetY%) scale(scale)`. */
  datatype Transform = Transform(offsetX: int, offsetY: int, scale: int)

  const Identity: Transform := Transform(0, 0, 1)
  const CenterX: int := 50
  const CenterY: int := 50
  const ZoomScale: int := 3
  const LoadError: string := "Unable to load cluster map — Retry"

  /** The transform for the active cluster: the identity in cluster mode, with
      no (or an empty) active id, or when no cluster has that id; otherwise the
      first cluster with that id is moved to the centre and magnified three times. */
  function TransformFor(mode: ViewMode, active: Option<string>, clusters: seq<ClusterNode>): (r: Transform)
    ensures mode == ClusterMode || active.None? || active.value == "" ==> r == Identity
    ensures (forall i :: 0 <= i < |clusters| ==> Some(clusters[i].id) != active) ==> r == Identity
    ensures r != Identity ==>
      exists i :: 0 <= i < |clusters| && Some(clusters[i].id) == active
        && (forall j :: 0 <= j < i ==> Some(clusters[j].id) != active)
        && r == Transform((CenterX - clusters[i].x) * ZoomScale, (CenterY - clusters[i].y) * ZoomScale, ZoomScale)
    ensures mode == MarkersMode && active.Some? && active.value != "" ==>
      forall i ::
        (0 <= i < |clusters| && Some(clusters[i].id) == active
          && (forall j :: 0 <= j < i ==> Some(clusters[j].id) != active)) ==>
        r == Transform((CenterX - clusters[i].x) * ZoomScale, (CenterY - clusters[i].y) * ZoomScale, ZoomScale)
  {
    if mode == ClusterMode || active.None? || active.value == "" then Identity
    else match FindIndex(clusters, (c: ClusterNode) => Some(c.id) == active)
      case None => Identity
      case Some(i) =>
        var c := clusters[i];
        Transform((CenterX - c.x) * ZoomScale, (CenterY - c.y) * ZoomScale, ZoomScale)
  }

  class Map {
    var viewMode: ViewMode
    var activeCluster: Option<string>
    var clusters: seq<ClusterNode>
    var status: Status
    var errorMsg: Option<string>

    constructor ()
      ensures viewMode == ClusterMode && activeCluster == None && clusters == []
      ensures status == Idle && errorMsg == None
    {
      viewMode := ClusterMode;
      activeCluster := None;
      clusters := [];
      status := Idle;
      errorMsg := None;
    }

    /** The first two steps of `loadData`, before the fetch is awaited. */
    method StartLoad()
      modifies this
      ensures status == Loading && errorMsg == None
      ensures clusters == old(clusters) && viewMode == old(viewMode) && activeCluster == old(activeCluster)
    {
      status := Loading;
      errorMsg := None;
    }

    /** The rest of `loadData`, once the fetch has settled: no data or an empty
        list ends in `Empty` with no clusters, data ends in `Ready` holding it,
        and a rejection ends in `Error` with the retry message and the previous
        clusters left in place. */
    method FinishLoad(outcome: FetchOutcome)
      modifies this
      ensures outcome.Fetched? && (outcome.data.None? || outcome.data.value == []) ==>
        status == Empty && clusters == [] && errorMsg == old(errorMsg)
      ensures outcome.Fetched? && outcome.data.Some? && outcome.data.value != [] ==>
        status == Ready && clusters == outcome.data.value && errorMsg == old(errorMsg)
      ensures outcome.Failed? ==> status == Error && errorMsg == Some(LoadError) && clusters == old(clusters)
      ensures viewMode == old(viewMode) && activeCluster == old(activeCluster)
    {
      match outcome
      case Failed =>
        status := Error;
        errorMsg := Some(LoadError);
      case Fetched(data) =>
        if data.None? || data.value == [] {
          status := Empty;
          clusters := [];
        } else {
          clusters := data.value;
          status := Ready;
        }
    }

    /** `loadData()` with the fetch settling as `outcome`. */
    method LoadData(outcome: FetchOutcome)
      modifies this
      ensures outcome.Failed? ==> status == Error && errorMsg == Some(LoadError) && clusters == old(clusters)
      ensures outcome.Fetched? ==> errorMsg == None
      ensures outcome.Fetched? && (outcome.data.None? || outcome.data.value == []) ==> status == Empty && clusters == []
      ensures outcome.Fetched? && outcome.data.Some? && outcome.data.value != [] ==>
        status == Ready && clusters == outcome.data.value
      ensures viewMode == old(viewMode) && activeCluster == old(activeCluster)
    {
      StartLoad();
      FinishLoad(outcome);
    }

    /** `handleClusterClick(id)`: zoom into the cluster. */
    method HandleClusterClick(id: string)
      modifies this
      ensures activeCluster == Some(id) && viewMode == MarkersMode
      ensures clusters == old(clusters) && status == old(status) && errorMsg == old(errorMsg)
    {
      activeCluster := Some(id);
      viewMode := MarkersMode;
    }

    /** `resetView()`: back to the cluster overview. */
    method ResetView()
      modifies this
      ensures activeCluster == None && viewMode == ClusterMode
      ensures GetTransform() == Identity
      ensures clusters == old(clusters) && status == old(status) && errorMsg == old(errorMsg)
    {
      activeCluster := None;
      viewMode := ClusterMode;
    }

    /** `getTransform()`. */
    function GetTransform(): Transform
      reads this
    {
      TransformFor(viewMode, activeCluster, clusters)
    }

    /** The sub-point markers rendered for a cluster: its sub-points, but only
        for the active cluster in markers mode. */
    function SubPointsShown(c: ClusterNode): (r: seq<SubPoint>)
      reads this
      ensures r != [] ==> viewMode == MarkersMode && activeCluster == Some(c.id) && c.subPoints == Some(r)
      ensures viewMode == MarkersMode && activeCluster == Some(c.id) && c.subPoints.Some? ==> r == c.subPoints.value
    {
      if viewMode == MarkersMode && activeCluster == Some(c.id) && c.subPoints.Some? then c.subPoints.value else []
    }
  }

  /** Clicking a cluster zooms onto it when it is loaded; resetting the view
      afterwards restores the overview with the identity transform. */
  method ClickThenReset(m: Map, i: nat)
    requires i < |m.clusters| && m.clusters[i].id != ""
    requires forall j :: 0 <= j < i ==> m.clusters[j].id != m.clusters[i].id
    modifies m
    ensures m.viewMode == ClusterMode && m.activeCluster == None && m.GetTransform() == Identity
    ensures m.clusters == old(m.clusters) && m.status == old(m.status)
  {
    var c := m.clusters[i];
    m.HandleClusterClick(c.id);
    assert m.GetTransform() == Transform((CenterX - c.x) * ZoomScale, (CenterY - c.y) * ZoomScale, ZoomScale);
    m.ResetView();
  }
}
