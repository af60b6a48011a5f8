/**
 * The orderer compose file (`DockerComposeOrdererGenerator`) as a function of the topology,
 * its saving, and the start of the orderer services: each on its own engine, one after the
 * other, failures reported per orderer but never stopping the sequence.
 */
module OrdererCompose {
  import opened Wrappers
  import opened Topology
  import opened Compose
  import opened Docker

  /**
   * Values the template reads from helpers whose code is not part of this model: the
   * artifacts folder (`getArtifactsPath`) and the genesis block's file name (`GENESIS_FILE_NAME`).
   */
  datatype TemplateParams = TemplateParams(artifactsPath: string, genesisFileName: string)

  const ListenPortVar := "ORDERER_GENERAL_LISTENPORT"

  /** `<orderer.name>.<domainName>`: the named volume and the service name `startOrderer` composes. */
  function ServiceName(org: Org, o: Orderer): string {
    o.name + "." + org.domainName
  }

  /** The fixed first extra host, `"bnc_test: 127.0.0.1"`. */
  const TestHost := ExtraHost("bnc_test", " 127.0.0.1")

  function PeerHosts(net: Network, res: Resolver, peers: seq<Peer>): (hs: seq<ExtraHost>)
    ensures |hs| == |peers|
    ensures forall i :: 0 <= i < |peers| ==>
      hs[i] == ExtraHost(PeerFullName(net.org, peers[i]), res.engineHost(peers[i].options.engineName))
  {
    if |peers| == 0 then []
    else [ExtraHost(PeerFullName(net.org, peers[0]), res.engineHost(peers[0].options.engineName))]
         + PeerHosts(net, res, peers[1..])
  }

  function OrdererHosts(res: Resolver, orderers: seq<Orderer>): (hs: seq<ExtraHost>)
    ensures |hs| == |orderers|
    ensures forall i :: 0 <= i < |orderers| ==>
      hs[i] == ExtraHost(res.ordererName(orderers[i]), res.engineHost(orderers[i].options.engineName))
  {
    if |orderers| == 0 then []
    else [ExtraHost(res.ordererName(orderers[0]), res.engineHost(orderers[0].options.engineName))]
         + OrdererHosts(res, orderers[1..])
  }

  /** The host entries every orderer service carries: the test host, the peer hosts, the orderer hosts. */
  function ExtraHosts(net: Network, res: Resolver): seq<ExtraHost> {
    [TestHost] + PeerHosts(net, res, net.org.peerExtraHosts) + OrdererHosts(res, net.org.ordererExtraHosts)
  }

  function OrdererVolumes(net: Network, res: Resolver, p: TemplateParams, o: Orderer): seq<VolumeBinding> {
    var dir := net.options.networkConfigPath + "/organizations/ordererOrganizations/" + net.org.domainName
               + "/orderers/" + res.ordererName(o);
    [ VolumeBinding(p.artifactsPath + "/" + p.genesisFileName, "/var/hyperledger/orderer/orderer.genesis.block"),
      VolumeBinding(dir + "/msp", "/var/hyperledger/orderer/msp"),
      VolumeBinding(dir + "/tls/", "/var/hyperledger/orderer/tls"),
      VolumeBinding(res.ordererName(o), "/var/hyperledger/production/orderer")]
  }

  /**
   * One orderer's service: keyed and named `ordererName(orderer)`, extending `orderer-base`,
   * listening on and publishing the orderer's first port.
   */
  function OrdererService(net: Network, res: Resolver, p: TemplateParams, o: Orderer): (svc: Service)
    ensures svc.key == res.ordererName(o) && svc.containerName == res.ordererName(o)
    ensures svc.baseService == Some(Extends("base/docker-compose-base.yaml", "orderer-base"))
    ensures svc.networks == [net.options.composeNetwork]
    ensures svc.extraHosts == ExtraHosts(net, res)
  {
    Service(
      res.ordererName(o),
      res.ordererName(o),
      None,
      None,
      Some(Extends("base/docker-compose-base.yaml", "orderer-base")),
      [EnvVar(ListenPortVar, FirstPort(o.options).Render())],
      [PortMap(FirstPort(o.options), FirstPort(o.options))],
      OrdererVolumes(net, res, p, o),
      ExtraHosts(net, res),
      [net.options.composeNetwork])
  }

  function OrdererServices(net: Network, res: Resolver, p: TemplateParams, orderers: seq<Orderer>)
    : (svcs: seq<Service>)
    ensures |svcs| == |orderers|
    ensures forall i :: 0 <= i < |orderers| ==> svcs[i] == OrdererService(net, res, p, orderers[i])
  {
    if |orderers| == 0 then []
    else [OrdererService(net, res, p, orderers[0])] + OrdererServices(net, res, p, orderers[1..])
  }

  function VolumeNames(org: Org, orderers: seq<Orderer>): (vs: seq<string>)
    ensures |vs| == |orderers|
    ensures forall i :: 0 <= i < |orderers| ==> vs[i] == ServiceName(org, orderers[i])
  {
    if |orderers| == 0 then [] else [ServiceName(org, orderers[0])] + VolumeNames(org, orderers[1..])
  }

  /** The orderer compose file: one named volume and one service per orderer, in orderer order. */
  function OrdererComposeFile(net: Network, res: Resolver, p: TemplateParams): ComposeFile {
    ComposeFile("2", VolumeNames(net.org, net.org.orderers), [net.options.composeNetwork],
                OrdererServices(net, res, p, net.org.orderers))
  }

  /**
   * An orderer's service listens on and publishes the orderer's first port, rendered
   * `undefined` when the orderer has no port.
   */
  lemma OrdererServicePorts(net: Network, res: Resolver, p: TemplateParams, o: Orderer)
    ensures var svc := OrdererService(net, res, p, o);
      && EnvValue(svc.environment, ListenPortVar) == Some(FirstPort(o.options).Render())
      && svc.ports == [PortMap(FirstPort(o.options), FirstPort(o.options))]
      && (|o.options.ports| == 0 ==> svc.ports[0].Render() == "undefined:undefined")
  {
  }

  /** Every orderer service carries the test host, then the peer hosts, then the orderer hosts. */
  lemma ExtraHostsOrder(net: Network, res: Resolver)
    ensures var hosts := ExtraHosts(net, res);
      && |hosts| == 1 + |net.org.peerExtraHosts| + |net.org.ordererExtraHosts|
      && hosts[0].Render() == "bnc_test: 127.0.0.1"
      && (forall j :: 0 <= j < |net.org.peerExtraHosts| ==>
            hosts[1 + j].host == PeerFullName(net.org, net.org.peerExtraHosts[j]))
      && (forall j :: 0 <= j < |net.org.ordererExtraHosts| ==>
            hosts[1 + |net.org.peerExtraHosts| + j].host == res.ordererName(net.org.ordererExtraHosts[j]))
  {
    var peerHosts := PeerHosts(net, res, net.org.peerExtraHosts);
    var ordererHosts := OrdererHosts(res, net.org.ordererExtraHosts);
    var hosts := ExtraHosts(net, res);
    assert forall j :: 0 <= j < |peerHosts| ==> hosts[1 + j] == peerHosts[j];
    assert forall j :: 0 <= j < |ordererHosts| ==> hosts[1 + |peerHosts| + j] == ordererHosts[j];
  }

  /** The template has exactly one named volume and one service per orderer, in orderer order. */
  lemma OrdererComposeFileShape(net: Network, res: Resolver, p: TemplateParams)
    ensures var f := OrdererComposeFile(net, res, p);
      var os := net.org.orderers;
      && |f.volumes| == |os| && |f.services| == |os|
      && forall i :: 0 <= i < |os| ==>
        && f.volumes[i] == ServiceName(net.org, os[i])
        && f.services[i].key == res.ordererName(os[i])
        && f.services[i] == OrdererService(net, res, p, os[i])
  {
  }

  /** `createTemplateOrderers`: true exactly when the compose file is saved. */
  function CreateTemplateOrderers(net: Network, res: Resolver, p: TemplateParams, write: Reply<()>)
    : (r: Saved<ComposeFile>)
    ensures r.ok <==> write.Ok?
    ensures r.ok ==> r.written == Some(OrdererComposeFile(net, res, p))
  {
    CreateTemplate(OrdererComposeFile(net, res, p), write)
  }

  // ---- starting orderers ----

  /** A request to the container engine named `engine`. */
  datatype EngineCall = EngineCall(engine: string, call: DockerCall)

  /** The engine's answers to one orderer start: network creation, then compose. */
  datatype StartAnswers = StartAnswers(createNetwork: Reply<()>, compose: Reply<()>)

  datatype OrdererStart = OrdererStart(ok: bool, calls: seq<EngineCall>)

  /**
   * `startOrderer`: on the orderer's engine, create the compose network, then compose
   * `<orderer.name>.<domainName>`; any failure gives false.
   */
  function StartOrderer(net: Network, o: Orderer, a: StartAnswers): (r: OrdererStart)
    ensures r.ok <==> a.createNetwork.Ok? && a.compose.Ok?
    ensures |r.calls| >= 1 && r.calls[0] == EngineCall(o.options.engineName, CreateNetwork(net.options.composeNetwork))
    ensures |r.calls| == 2 <==> a.createNetwork.Ok?
    ensures a.createNetwork.Ok? ==> r.calls[1] == EngineCall(o.options.engineName, ComposeUp(ServiceName(net.org, o)))
  {
    var engine := o.options.engineName;
    var create := [EngineCall(engine, CreateNetwork(net.options.composeNetwork))];
    if a.createNetwork.Fail? then OrdererStart(false, create)
    else OrdererStart(a.compose.Ok?, create + [EngineCall(engine, ComposeUp(ServiceName(net.org, o)))])
  }

  /**
   * The service `startOrderer` composes, `<orderer.name>.<domainName>`, is declared by the
   * orderer compose file exactly when `ordererName` gives some orderer that name; so it is
   * declared whenever `ordererName` of a listed orderer is that name.
   */
  lemma StartedServiceDeclared(net: Network, res: Resolver, p: TemplateParams, o: Orderer, a: StartAnswers)
    ensures var r := StartOrderer(net, o, a);
      a.createNetwork.Ok? ==>
        (Declares(OrdererComposeFile(net, res, p), r.calls[1].call.service) <==>
         exists i :: 0 <= i < |net.org.orderers| && res.ordererName(net.org.orderers[i]) == ServiceName(net.org, o))
    ensures o in net.org.orderers && res.ordererName(o) == ServiceName(net.org, o) ==>
      Declares(OrdererComposeFile(net, res, p), ServiceName(net.org, o))
  {
    var f := OrdererComposeFile(net, res, p);
    var os := net.org.orderers;
    OrdererComposeFileShape(net, res, p);
    if o in os && res.ordererName(o) == ServiceName(net.org, o) {
      var i :| 0 <= i < |os| && os[i] == o;
      assert f.services[i].key == ServiceName(net.org, o);
    }
    if exists i :: 0 <= i < |os| && res.ordererName(os[i]) == ServiceName(net.org, o) {
      var i :| 0 <= i < |os| && res.ordererName(os[i]) == ServiceName(net.org, o);
      assert f.services[i].key == ServiceName(net.org, o);
    }
  }

  /** The outcome of `startOrderers`: the boolean returned and each orderer's start, in order. */
  datatype StartAll = StartAll(ok: bool, starts: seq<OrdererStart>)

  /** The `for ... of orderers` loop from position `k`, `answers(i)` answering the `i`-th start. */
  function StartOrderersFrom(net: Network, answers: nat -> StartAnswers, k: nat): (starts: seq<OrdererStart>)
    ensures |starts| == |net.org.orderers| - k || (k >= |net.org.orderers| && starts == [])
    ensures forall i :: 0 <= i < |starts| ==>
      k + i < |net.org.orderers| && starts[i] == StartOrderer(net, net.org.orderers[k + i], answers(k + i))
    decreases |net.org.orderers| - k
  {
    if k >= |net.org.orderers| then []
    else [StartOrderer(net, net.org.orderers[k], answers(k))] + StartOrderersFrom(net, answers, k + 1)
  }

  /**
   * `startOrderers`: every orderer is started, in list order, whatever the previous starts
   * returned; the result is true regardless.
   */
  function StartOrderers(net: Network, answers: nat -> StartAnswers): (r: StartAll)
    ensures r.ok
    ensures |r.starts| == |net.org.orderers|
    ensures forall i :: 0 <= i < |net.org.orderers| ==>
      r.starts[i] == StartOrderer(net, net.org.orderers[i], answers(i))
  {
    StartAll(true, StartOrderersFrom(net, answers, 0))
  }

  /** All engine requests of a sequence of starts, in order. */
  function Calls(starts: seq<OrdererStart>): seq<EngineCall> {
    if |starts| == 0 then [] else starts[0].calls + Calls(starts[1..])
  }

  /** The services composed by a sequence of starts, in order. */
  function Composed(calls: seq<EngineCall>): seq<string> {
    if |calls| == 0 then []
    else (if calls[0].call.ComposeUp? then [calls[0].call.service] else []) + Composed(calls[1..])
  }

  lemma ComposedConcat(a: seq<EngineCall>, b: seq<EngineCall>)
    ensures Composed(a + b) == Composed(a) + Composed(b)
  {
    if |a| > 0 {
      assert (a + b)[0] == a[0];
      assert (a + b)[1..] == a[1..] + b;
      ComposedConcat(a[1..], b);
    } else {
      assert a + b == b;
    }
  }

  /** The services composed from position `k` on: those whose network creation succeeded. */
  function ExpectedComposed(net: Network, answers: nat -> StartAnswers, k: nat): seq<string>
    decreases |net.org.orderers| - k
  {
    if k >= |net.org.orderers| then []
    else (if answers(k).createNetwork.Ok? then [ServiceName(net.org, net.org.orderers[k])] else [])
         + ExpectedComposed(net, answers, k + 1)
  }

  /**
   * The services are composed in orderer order: exactly those of the orderers whose network
   * creation succeeded, a failed orderer not stopping the ones after it.
   */
  lemma {:induction false} StartOrderersComposeInOrder(net: Network, answers: nat -> StartAnswers, k: nat)
    ensures Composed(Calls(StartOrderersFrom(net, answers, k))) == ExpectedComposed(net, answers, k)
    decreases |net.org.orderers| - k
  {
    if k < |net.org.orderers| {
      var starts := StartOrderersFrom(net, answers, k);
      var first := StartOrderer(net, net.org.orderers[k], answers(k));
      assert starts[1..] == StartOrderersFrom(net, answers, k + 1);
      ComposedConcat(first.calls, Calls(starts[1..]));
      StartOrderersComposeInOrder(net, answers, k + 1);
      assert first.calls[1..] == if answers(k).createNetwork.Ok? then [first.calls[1]] else [];
      assert Composed(first.calls) == (if answers(k).createNetwork.Ok? then [ServiceName(net.org, net.org.orderers[k])] else []);
    }
  }
}
