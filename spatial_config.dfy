/** The pre-flight check of a dual-replica spatial configuration.
    The generic spatial check (power-of-two image and tile sizes) belongs to the
    single-replica executor and is not part of this model: its verdict enters as
    `spatialConfigOk`. */
module SpatialConfig {
  import opened Ranks

  datatype ConfigError =
    | MissingSpatialParts     // num_spatial_parts_list[0] of an empty list
    | SpatialConfigRejected   // the generic spatial check failed
    | ReplicaRanksOverlap     // mp_size < 2 * spatial parts

  datatype Outcome = Accepted | Rejected(error: ConfigError)

  /** World rank of local rank `localRank` of model 2, which is laid out in inverse order. */
  function InverseWorldRank(mpSize: int, localRank: int): int
  {
    Partner(mpSize, localRank)
  }

  /** The spatial parts of model 1 occupy world ranks 0 .. k-1; those of model 2 occupy
      world ranks mpSize-1 down to mpSize-k. The replicas must not share such a device. */
  predicate SpatialRanksDisjoint(k: int, mpSize: int)
  {
    forall j :: 0 <= j < k ==> !(0 <= InverseWorldRank(mpSize, j) < k)
  }

  /** The check itself: the list is indexed first, then the generic check runs, then the
      replica-overlap assertion. */
  function VerifySpatialMasterConfig(spatialConfigOk: bool, numSpatialPartsList: seq<int>, mpSize: int)
    : (r: Outcome)
    ensures r == Accepted <==>
              |numSpatialPartsList| > 0 && spatialConfigOk && mpSize >= 2 * numSpatialPartsList[0]
    ensures |numSpatialPartsList| == 0 ==> r == Rejected(MissingSpatialParts)
    ensures |numSpatialPartsList| > 0 && !spatialConfigOk ==> r == Rejected(SpatialConfigRejected)
    ensures r == Rejected(ReplicaRanksOverlap) <==>
              |numSpatialPartsList| > 0 && spatialConfigOk && mpSize < 2 * numSpatialPartsList[0]
  {
    if |numSpatialPartsList| == 0 then
      Rejected(MissingSpatialParts)
    else
      var spatialPartSize := numSpatialPartsList[0];
      if !spatialConfigOk then
        Rejected(SpatialConfigRejected)
      else if mpSize < 2 * spatialPartSize then
        Rejected(ReplicaRanksOverlap)
      else
        Accepted
  }

  /** What the assertion protects: once the generic check passes, the configuration is
      accepted exactly when no device hosts a spatial part of both replicas. */
  lemma {:induction false} AcceptedIffSpatialRanksDisjoint(numSpatialPartsList: seq<int>, mpSize: int)
    requires |numSpatialPartsList| > 0
    requires mpSize >= 1
    ensures VerifySpatialMasterConfig(true, numSpatialPartsList, mpSize) == Accepted
            <==> SpatialRanksDisjoint(numSpatialPartsList[0], mpSize)
  {
    var k := numSpatialPartsList[0];
    if mpSize < 2 * k {
      // a device shared by both replicas
      var j := if mpSize >= k then k - 1 else mpSize - 1;
      assert 0 <= j < k && 0 <= InverseWorldRank(mpSize, j) < k;
    }
  }

  /** One rank too few is always rejected: mpSize = 2k - 1 with k spatial parts. */
  lemma OneRankShortRejected(k: int, rest: seq<int>)
    ensures VerifySpatialMasterConfig(true, [k] + rest, 2 * k - 1) == Rejected(ReplicaRanksOverlap)
  {
  }
}
