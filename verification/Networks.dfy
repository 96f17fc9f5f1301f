/**
 Docker networks for challenges.  The attribute check runs when settings are saved, when the
 plugin connects and before every launch.
 */
module Networks {
  import opened Options
  import opened Text
  import opened Identity

  /** What Docker's inspect reports; an attribute may be missing. */
  datatype Network = Network(name: Option<string>, driver: Option<string>, internal: Option<bool>,
                             options: Option<map<string, string>>, labels: Option<Labels>)

  datatype Error = WrongName | NotABridge | Internal | ContainersConnected | NoLabels | OtherEvent | OtherRole
                 | OtherEgress

  function Get(m: map<string, string>, key: string): Option<string> { if key in m then Some(m[key]) else None }

  const ICC := "com.docker.network.bridge.enable_icc"

  function Refusal(n: Network, id: RuntimeIdentity): Option<Error> {
    if n.name != Some(id.network) then Some(WrongName)
    else if n.driver != Some("bridge") then Some(NotABridge)
    else if n.internal != Some(false) then Some(Internal)
    else if n.options.None? || ICC !in n.options.value || Lower(n.options.value[ICC]) != "false" then
      Some(ContainersConnected)
    else if n.labels.None? then Some(NoLabels)
    else if Get(n.labels.value, "ctfd.event_id") != Some(id.event) then Some(OtherEvent)
    else if Get(n.labels.value, "ctfd.network_role") != Some("challenge") then Some(OtherRole)
    else if Get(n.labels.value, "ctfd.egress_policy") != Some(id.egress) then Some(OtherEgress)
    else None
  }

  /** A network as the deployment creates it for one identity. */
  function NetworkOf(id: RuntimeIdentity): Network {
    Network(Some(id.network), Some("bridge"), Some(false), Some(map[ICC := "False"]),
            Some(map["ctfd.event_id" := id.event, "ctfd.network_role" := "challenge",
                     "ctfd.egress_policy" := id.egress]))
  }

  /** Its own process can launch on it. */
  lemma OwnNetworkPasses(id: RuntimeIdentity)
    ensures Refusal(NetworkOf(id), id).None?
  {
    var labels := NetworkOf(id).labels.value;
    assert Get(labels, "ctfd.event_id") == Some(id.event) && Get(labels, "ctfd.network_role") == Some("challenge");
    assert Get(labels, "ctfd.egress_policy") == Some(id.egress);
    assert Lower("False") == "false";
  }

  /** Two processes can launch on one network exactly if they agree on event, network name and egress policy. */
  lemma LaunchNetworkShared(a: RuntimeIdentity, b: RuntimeIdentity)
    ensures (exists n :: Refusal(n, a).None? && Refusal(n, b).None?)
       <==> a.event == b.event && a.network == b.network && a.egress == b.egress
  {
    if a.event == b.event && a.network == b.network && a.egress == b.egress {
      OwnNetworkPasses(a);
      OwnNetworkPasses(b);
      assert NetworkOf(a) == NetworkOf(b);
    }
  }

  /** A network passes exactly as the process's own non-internal bridge with inter-container traffic off. */
  lemma PassesExactly(n: Network, id: RuntimeIdentity)
    ensures Refusal(n, id).None? <==>
      && n.name == Some(id.network) && n.driver == Some("bridge") && n.internal == Some(false)
      && n.options.Some? && "com.docker.network.bridge.enable_icc" in n.options.value
      && Lower(n.options.value["com.docker.network.bridge.enable_icc"]) == "false"
      && n.labels.Some?
      && "ctfd.event_id" in n.labels.value && n.labels.value["ctfd.event_id"] == id.event
      && "ctfd.network_role" in n.labels.value && n.labels.value["ctfd.network_role"] == "challenge"
      && "ctfd.egress_policy" in n.labels.value && n.labels.value["ctfd.egress_policy"] == id.egress
  {
  }
}
