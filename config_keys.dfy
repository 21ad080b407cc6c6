/**
 * The property keys and client-type names of ClientConfigConstants. That
 * interface is not part of this model, so the texts below are stand-ins: the
 * model depends only on their being pairwise different (they are chosen with
 * pairwise different lengths, which makes that evident).
 */
module ConfigKeys {
  const PropKeyDebugClients: string := "debug.clients"
  const PropKeyServerBaseUri: string := "server.baseuri"
  const PropKeyServerConnectionTimeoutSec: string := "server.connection.timeout.sec"
  const PropKeyServerReadTimeoutSec: string := "server.read.timeout.sec"
  const PropKeyServerSrcComponentName: string := "server.src.component.name"
  const PropKeyServerDummyInvokerSetFlag: string := "server.dummyinvoker.set.flag"
  const PropKeyServerTopologyViewUri: string := "server.topology.view.uri"

  const ClientTypeHitachi: string := "HITACHI"
  const ClientTypeOther: string := "OTHER"
}
