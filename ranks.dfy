/** Rank arithmetic of the two mirrored replicas.
    Model 2 is laid out on the devices in the inverse order of model 1, so local
    rank r of one replica shares its device with local rank mpSize - 1 - r of the
    other; that rank is also the peer of every parameter and gradient exchange. */
module Ranks {

  /** The exchange partner of `rank` in a model-parallel group of `mpSize` ranks. */
  function Partner(mpSize: int, rank: int): (p: int)
    ensures 0 <= rank < mpSize ==> 0 <= p < mpSize
    ensures p + rank == mpSize - 1
  {
    mpSize - 1 - rank
  }

  /** Ranks in the lower half of the group send their parameters before they receive. */
  predicate SendsParamsFirst(mpSize: nat, rank: int)
  {
    rank < mpSize / 2
  }

  lemma PartnerInvolution(mpSize: int, rank: int)
    ensures Partner(mpSize, Partner(mpSize, rank)) == rank
  {
  }

  /** With an even group, a rank and its partner always sit in opposite halves, so one of
      them issues its send first and the other its receive first. */
  lemma {:induction false} PartnerRolesDiffer(mpSize: nat, rank: int)
    requires mpSize % 2 == 0
    requires 0 <= rank < mpSize
    ensures SendsParamsFirst(mpSize, rank) != SendsParamsFirst(mpSize, Partner(mpSize, rank))
  {
    var h := mpSize / 2;
    assert mpSize == 2 * h;
  }

  /** With an odd group the middle rank is its own partner; every other rank still pairs
      with a rank of the opposite half. */
  lemma {:induction false} OddGroupMiddleRank(mpSize: nat, rank: int)
    requires mpSize % 2 == 1
    requires 0 <= rank < mpSize
    ensures Partner(mpSize, rank) == rank <==> rank == mpSize / 2
    ensures rank != mpSize / 2 ==>
              SendsParamsFirst(mpSize, rank) != SendsParamsFirst(mpSize, Partner(mpSize, rank))
  {
    var h := mpSize / 2;
    assert mpSize == 2 * h + 1;
  }
}
