/** How the flavor flow of pumphouse/tasks/flavor.py feeds the server flows of
    pumphouse/tasks/server.py: both spell the flavor's ensure binding the same
    way, so a server flow placed after its flavor's flow finds the flavor binding
    its sync point waits for. */
module Wiring {
  import opened Wrappers
  import opened Flows
  import FlavorTasks
  import ServerTasks

  /** Flavor flow, then image-strategy server flow: with the store seeded by both
      builders, only the image's ensure binding has to come from elsewhere. */
  lemma FlavorThenImageFlow(serverId: string, imageId: string, flavorId: string)
    ensures WellFormed(
      FlavorTasks.FlavorFlow(flavorId) + ServerTasks.ImageFlow(serverId, imageId, flavorId),
      {FlavorTasks.FlavorRetrieve(flavorId), ServerTasks.ServerBinding(serverId)},
      {ServerTasks.ImageEnsure(imageId)})
  {
    var f := FlavorTasks.FlavorFlow(flavorId);
    var g := ServerTasks.ImageFlow(serverId, imageId, flavorId);
    FlavorTasks.FlavorFlowWellFormed(flavorId);
    ServerTasks.ImageFlowWellFormed(serverId, imageId, flavorId);
    assert f[1].output == Some(ServerTasks.FlavorEnsure(flavorId));
    SequenceWellFormed(f, g,
      {FlavorTasks.FlavorRetrieve(flavorId), ServerTasks.ServerBinding(serverId)},
      {ServerTasks.ImageEnsure(imageId)},
      {FlavorTasks.FlavorRetrieve(flavorId)}, {},
      {ServerTasks.ServerBinding(serverId)}, Gated(g));
  }

  /** Flavor flow, then snapshot-strategy server flow: only the snapshot's
      ensure binding has to come from elsewhere. */
  lemma FlavorThenSnapshotFlow(serverId: string, flavorId: string)
    ensures WellFormed(
      FlavorTasks.FlavorFlow(flavorId) + ServerTasks.SnapshotFlow(serverId, flavorId),
      {FlavorTasks.FlavorRetrieve(flavorId), ServerTasks.ServerBinding(serverId)},
      {ServerTasks.SnapshotEnsure(serverId)})
  {
    var f := FlavorTasks.FlavorFlow(flavorId);
    var g := ServerTasks.SnapshotFlow(serverId, flavorId);
    FlavorTasks.FlavorFlowWellFormed(flavorId);
    ServerTasks.SnapshotFlowWellFormed(serverId, flavorId);
    assert f[1].output == Some(ServerTasks.FlavorEnsure(flavorId));
    SequenceWellFormed(f, g,
      {FlavorTasks.FlavorRetrieve(flavorId), ServerTasks.ServerBinding(serverId)},
      {ServerTasks.SnapshotEnsure(serverId)},
      {FlavorTasks.FlavorRetrieve(flavorId)}, {},
      {ServerTasks.ServerBinding(serverId)}, Gated(g));
  }
}
