/** What a cluster needs next to converge on its declared topology. */
module Topology {

  datatype Desired = Desired(shards: int, replicasPerShard: int)

  datatype Observed = Observed(formed: bool, slotsCovered: bool, primaryCount: int, replicaCounts: seq<int>)

  datatype Plan =
    | Form
    | Repair
    | ScaleOutShards(add: int)
    | ScaleInShards(remove: int)
    | ScaleReplicas(desired: int)
    | NoAction

  function Decide(d: Desired, o: Observed): Plan {
    if !o.formed then Form
    else if !o.slotsCovered then Repair
    else if d.shards > o.primaryCount then ScaleOutShards(d.shards - o.primaryCount)
    else if d.shards < o.primaryCount then ScaleInShards(o.primaryCount - d.shards)
    else if exists i :: 0 <= i < |o.replicaCounts| && o.replicaCounts[i] != d.replicasPerShard
    then ScaleReplicas(d.replicasPerShard)
    else NoAction
  }
}
