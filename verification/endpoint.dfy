/**
 * The REST endpoints whose entities the tests create. Declaration order is
 * the deletion priority: queued builds, builds, build configurations, users,
 * projects (children before the projects that own them).
 */
module Endpoints {

  datatype Endpoint = BuildQueue | Builds | BuildTypes | Users | Projects

  /** Ordinal of the endpoint in declaration order. */
  function Rank(e: Endpoint): nat {
    match e
    case BuildQueue => 0
    case Builds => 1
    case BuildTypes => 2
    case Users => 3
    case Projects => 4
  }

  /** Every endpoint, in declaration order. */
  const ALL: seq<Endpoint> := [BuildQueue, Builds, BuildTypes, Users, Projects]

  /** `ALL` lists each endpoint exactly once, at the index given by its rank. */
  lemma AllIsRankOrdered()
    ensures |ALL| == 5
    ensures forall e: Endpoint :: e in ALL && ALL[Rank(e)] == e
    ensures forall i, j :: 0 <= i < j < |ALL| ==> Rank(ALL[i]) < Rank(ALL[j])
  {
    forall e: Endpoint
      ensures e in ALL && ALL[Rank(e)] == e
    {
      match e
      case BuildQueue =>
      case Builds =>
      case BuildTypes =>
      case Users =>
      case Projects =>
    }
  }
}
