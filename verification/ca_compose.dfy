/**
 * The organization CA's compose service (`DockerComposeCaGenerator`) and the start and stop
 * decisions taken against the set of running containers. The container engine is a
 * collaborator: containers it reports are the `running` set, its other answers are inputs.
 */
module CaCompose {
  import opened Wrappers
  import opened Text
  import opened Topology
  import opened Compose
  import opened Docker

  /** Where the CA server keeps its home inside the container. */
  const CaContainerHome := "/tmp/hyperledger/fabric-ca"
  const TlsEnabledVar := "FABRIC_CA_SERVER_TLS_ENABLED"

  /** The host folder mounted as the CA's home: `<root>/organizations/fabric-ca/<org.name>`. */
  function CaHostFolder(net: Network): string {
    net.options.networkConfigPath + "/organizations/fabric-ca/" + net.org.name
  }

  /** `fabric-ca-server start` bootstrapped with the CA's user and password on its port. */
  function CaCommand(org: Org): string {
    "sh -c 'fabric-ca-server start -d -b " + org.ca.options.user + ":" + org.ca.options.password
      + " --port " + NatToString(org.ca.options.port) + " --cfg.identities.allowremove'"
  }

  function CaEnvironment(org: Org): seq<EnvVar> {
    [ EnvVar("FABRIC_CA_SERVER_HOME", CaContainerHome + "/crypto"),
      EnvVar("FABRIC_CA_SERVER_CA_NAME", org.caName),
      EnvVar(TlsEnabledVar, BoolToString(org.isSecure)),
      EnvVar("FABRIC_CA_SERVER_CSR_CN", org.caCn),
      EnvVar("FABRIC_CA_SERVER_CSR_HOSTS", "0.0.0.0"),
      EnvVar("FABRIC_CA_SERVER_DEBUG", "true")]
  }

  /**
   * The single service of the CA compose file: keyed and named after `caName`, publishing the
   * CA port on the same host port, TLS mirroring the organization's `isSecure`.
   */
  function CaService(net: Network): (svc: Service)
    ensures svc.key == net.org.caName && svc.containerName == net.org.caName
    ensures |svc.ports| == 1 && svc.ports[0].host == svc.ports[0].container == Port(net.org.ca.options.port)
    ensures svc.networks == [net.options.composeNetwork]
    ensures svc.volumes == [VolumeBinding(CaHostFolder(net), CaContainerHome)]
  {
    Service(
      net.org.caName,
      net.org.caName,
      Some("hyperledger/fabric-ca:" + net.options.hyperledgerCAVersion),
      Some(CaCommand(net.org)),
      None,
      CaEnvironment(net.org),
      [PortMap(Port(net.org.ca.options.port), Port(net.org.ca.options.port))],
      [VolumeBinding(CaHostFolder(net), CaContainerHome)],
      [],
      [net.options.composeNetwork])
  }

  /** The compose file: version 2, the external compose network, the CA service. */
  function CaComposeFile(net: Network): (f: ComposeFile)
    ensures f.externalNetworks == [net.options.composeNetwork]
    ensures |f.services| == 1 && Declares(f, net.org.caName)
  {
    var f := ComposeFile("2", [], [net.options.composeNetwork], [CaService(net)]);
    assert f.services[0].key == net.org.caName;
    f
  }

  /** Reading `FABRIC_CA_SERVER_TLS_ENABLED` back from the service gives the organization's `isSecure`. */
  lemma TlsEnabledMirrorsIsSecure(net: Network)
    ensures var v := EnvValue(CaService(net).environment, TlsEnabledVar);
      v.Some? && ParseBool(v.value) == Some(net.org.isSecure)
  {
    var env := CaService(net).environment;
    assert env[2] == EnvVar(TlsEnabledVar, BoolToString(net.org.isSecure));
    assert forall i :: 0 <= i < 2 ==> env[i].name != TlsEnabledVar;
    ParseBoolToString(net.org.isSecure);
  }

  /** Both sides of the rendered port binding read back as the CA port. */
  lemma PortBindingReadsBack(net: Network)
    ensures var p := CaService(net).ports[0];
      && p.Render() == NatToString(net.org.ca.options.port) + ":" + NatToString(net.org.ca.options.port)
      && AllDigits(p.host.Render()) && ParseDigits(p.host.Render()) == net.org.ca.options.port
      && AllDigits(p.container.Render()) && ParseDigits(p.container.Render()) == net.org.ca.options.port
  {
    ParseNatToString(net.org.ca.options.port);
  }

  // ---- start and stop ----

  /**
   * The engine's answers to `startOrgCa`: whether the first existence check answers (when it
   * does, the container exists exactly when it is in the running set), the compose outcome,
   * whether the check after the delay answers and whether it sees the container, and the
   * password-fed ownership change outcome.
   */
  datatype StartAnswers = StartAnswers(check: Reply<()>, compose: Reply<()>, recheck: Reply<()>,
                                       visibleAfterDelay: bool, chown: Reply<()>)

  /**
   * `startOrgCa`: nothing to do when the `caName` container exists. Otherwise compose it, wait,
   * check once, wait twice as long if it is not visible yet (without checking again), change
   * the ownership of the network folder and succeed. Any failing engine call or ownership
   * change is caught and gives false, with no further call.
   */
  function StartOrgCa(net: Network, running: set<string>, a: StartAnswers): (r: Lifecycle)
    ensures a.check.Fail? ==> r == Lifecycle(false, running, [ContainerExists(net.org.caName)])
    ensures a.check.Ok? && net.org.caName in running ==>
      r == Lifecycle(true, running, [ContainerExists(net.org.caName)])
    ensures a.check.Ok? && net.org.caName !in running ==>
      |r.calls| >= 2 && r.calls[..2] == [ContainerExists(net.org.caName), ComposeUp(net.org.caName)]
    ensures r.ok <==> a.check.Ok? && (net.org.caName in running || (a.compose.Ok? && a.recheck.Ok? && a.chown.Ok?))
    ensures r.running ==
      if a.check.Ok? && net.org.caName !in running && a.compose.Ok? then running + {net.org.caName} else running
    ensures a.check.Ok? && net.org.caName !in running && a.compose.Ok? ==>
      && |r.calls| >= 4 && r.calls[2] == Wait(1) && r.calls[3] == ContainerExists(net.org.caName)
      && (a.recheck.Fail? ==> |r.calls| == 4)
      && (a.recheck.Ok? ==>
            && |r.calls| == (if a.visibleAfterDelay then 5 else 6)
            && (!a.visibleAfterDelay ==> r.calls[4] == Wait(2))
            && r.calls[|r.calls| - 1] == ChangeOwnership(net.options.networkConfigPath, true))
  {
    var ca := net.org.caName;
    var check := [ContainerExists(ca)];
    if a.check.Fail? then Lifecycle(false, running, check)
    else if ca in running then Lifecycle(true, running, check)
    else
      var up := check + [ComposeUp(ca)];
      if a.compose.Fail? then Lifecycle(false, running, up)
      else
        var rechecked := up + [Wait(1), ContainerExists(ca)];
        if a.recheck.Fail? then Lifecycle(false, running + {ca}, rechecked)
        else
          var waited := rechecked + (if a.visibleAfterDelay then [] else [Wait(2)]);
          Lifecycle(a.chown.Ok?, running + {ca}, waited + [ChangeOwnership(net.options.networkConfigPath, true)])
  }

  /**
   * `stopOrgCa`: true with no stop request when the container does not exist; otherwise the
   * answer of the forced stop. A failing existence check or stop gives false.
   */
  function StopOrgCa(net: Network, running: set<string>, check: Reply<()>, stop: Reply<bool>): (r: Lifecycle)
    ensures check.Fail? ==> r == Lifecycle(false, running, [ContainerExists(net.org.caName)])
    ensures check.Ok? && net.org.caName !in running ==>
      r == Lifecycle(true, running, [ContainerExists(net.org.caName)])
    ensures check.Ok? && net.org.caName in running ==>
      r.calls == [ContainerExists(net.org.caName), StopContainer(net.org.caName, true)]
    ensures r.ok <==> check.Ok? && (net.org.caName !in running || stop == Ok(true))
    ensures r.running == if r.ok then running - {net.org.caName} else running
  {
    var ca := net.org.caName;
    if check.Fail? then Lifecycle(false, running, [ContainerExists(ca)])
    else if ca !in running then Lifecycle(true, running, [ContainerExists(ca)])
    else
      var calls := [ContainerExists(ca), StopContainer(ca, true)];
      match stop
      case Fail(_) => Lifecycle(false, running, calls)
      case Ok(stopped) => Lifecycle(stopped, if stopped then running - {ca} else running, calls)
  }

  /**
   * `startTlsCa`: compose `caName`, then change the ownership of `<root>/<org.name>` through
   * the prompting helper. Errors are logged and swallowed, so the call always returns normally.
   */
  function StartTlsCa(net: Network, running: set<string>, compose: Reply<()>): (r: Lifecycle)
    ensures r.ok
    ensures |r.calls| >= 1 && r.calls[0] == ComposeUp(net.org.caName)
    ensures |r.calls| == 2 <==> compose.Ok?
    ensures compose.Ok? ==>
      r.calls[1] == ChangeOwnership(net.options.networkConfigPath + "/" + net.org.name, false)
      && r.running == running + {net.org.caName}
    ensures compose.Fail? ==> r.running == running
  {
    var up := [ComposeUp(net.org.caName)];
    if compose.Fail? then Lifecycle(true, running, up)
    else Lifecycle(true, running + {net.org.caName},
                   up + [ChangeOwnership(net.options.networkConfigPath + "/" + net.org.name, false)])
  }

  /**
   * The service `startTlsCa` composes is the one the generator's compose file declares, so
   * the start never asks for a service the file lacks.
   */
  lemma StartTlsCaServiceDeclared(net: Network, running: set<string>, compose: Reply<()>)
    ensures Composes(StartTlsCa(net, running, compose).calls, net.org.caName)
    ensures Declares(CaComposeFile(net), net.org.caName)
  {
    assert StartTlsCa(net, running, compose).calls[0] == ComposeUp(net.org.caName);
  }

  /**
   * Once the CA is in the running set, starting it again composes nothing and changes nothing;
   * it succeeds exactly when the existence check answers. A first start whose check answers and
   * whose compose succeeds leaves the CA in the running set.
   */
  lemma StartOrgCaIdempotent(net: Network, running: set<string>, first: StartAnswers, second: StartAnswers)
    ensures var r := StartOrgCa(net, running, first);
      first.check.Ok? && first.compose.Ok? ==> net.org.caName in r.running
    ensures var r := StartOrgCa(net, running, first);
      var r' := StartOrgCa(net, r.running, second);
      net.org.caName in r.running ==>
        && (r'.ok <==> second.check.Ok?)
        && r'.running == r.running
        && r'.calls == [ContainerExists(net.org.caName)]
        && !Composes(r'.calls, net.org.caName)
  {
    var r := StartOrgCa(net, running, first);
    var r' := StartOrgCa(net, r.running, second);
    if net.org.caName in r.running {
      assert r'.calls[0] == ContainerExists(net.org.caName);
    }
  }

  /**
   * After a successful stop, stopping again stops nothing and changes nothing; it succeeds
   * exactly when the existence check answers.
   */
  lemma StopOrgCaIdempotent(net: Network, running: set<string>, check: Reply<()>, first: Reply<bool>,
                            check': Reply<()>, second: Reply<bool>)
    ensures var r := StopOrgCa(net, running, check, first);
      var r' := StopOrgCa(net, r.running, check', second);
      r.ok ==> r' == Lifecycle(check'.Ok?, r.running, [ContainerExists(net.org.caName)])
  {
  }

  /**
   * A successful start followed by a successful stop leaves the other containers as they
   * were; after a successful start, the stop succeeds exactly when its check answers and the
   * engine stops the container.
   */
  lemma StartThenStop(net: Network, running: set<string>, a: StartAnswers, check: Reply<()>, stop: Reply<bool>)
    ensures var up := StartOrgCa(net, running, a);
      var down := StopOrgCa(net, up.running, check, stop);
      up.ok ==>
        && (down.ok <==> check.Ok? && stop == Ok(true))
        && (down.ok ==> down.running == running - {net.org.caName})
  {
  }

  // ---- the rendered `volumes` block ----

  /** The indentation of a service's keys and of their list items in the template. */
  const KeyIndent := "    "
  const ItemIndent := "      - "

  /** The `volumes` block of the CA service as the template text writes it: the key carries a stray `;`. */
  function RenderVolumesAsWritten(svc: Service): seq<string> {
    [KeyIndent + "volumes:;"] + RenderItems(svc.volumes)
  }

  /** The `volumes` block with a plain `volumes:` key. */
  function RenderVolumes(svc: Service): seq<string> {
    [KeyIndent + "volumes:"] + RenderItems(svc.volumes)
  }

  function RenderItems(vs: seq<VolumeBinding>): (lines: seq<string>)
    ensures |lines| == |vs|
    ensures forall i :: 0 <= i < |vs| ==> lines[i] == ItemIndent + vs[i].Render()
  {
    if |vs| == 0 then [] else [ItemIndent + vs[0].Render()] + RenderItems(vs[1..])
  }

  /** The item texts of a block whose first line is the key `key:`, or `None` when it is not. */
  function ReadListBlock(lines: seq<string>, key: string): (items: Option<seq<string>>)
    ensures items.Some? ==> |items.value| == |lines| - 1
  {
    if |lines| == 0 || lines[0] != KeyIndent + key + ":" then None
    else ReadItems(lines[1..])
  }

  function ReadItems(lines: seq<string>): (items: Option<seq<string>>)
    ensures items.Some? ==> |items.value| == |lines|
  {
    if |lines| == 0 then Some([])
    else if |lines[0]| < |ItemIndent| || lines[0][..|ItemIndent|] != ItemIndent then None
    else
      match ReadItems(lines[1..])
      case None => None
      case Some(rest) => Some([lines[0][|ItemIndent|..]] + rest)
  }

  /** The texts of volume bindings, in order. */
  function BindingTexts(vs: seq<VolumeBinding>): (ts: seq<string>)
    ensures |ts| == |vs|
    ensures forall i :: 0 <= i < |vs| ==> ts[i] == vs[i].Render()
  {
    if |vs| == 0 then [] else [vs[0].Render()] + BindingTexts(vs[1..])
  }

  lemma {:induction false} ReadRenderItems(vs: seq<VolumeBinding>)
    ensures ReadItems(RenderItems(vs)) == Some(BindingTexts(vs))
  {
    if |vs| > 0 {
      var lines := RenderItems(vs);
      var first := ItemIndent + vs[0].Render();
      assert lines[0] == first;
      assert lines[1..] == RenderItems(vs[1..]);
      ReadRenderItems(vs[1..]);
      assert first[..|ItemIndent|] == ItemIndent;
      assert first[|ItemIndent|..] == vs[0].Render();
      assert BindingTexts(vs) == [vs[0].Render()] + BindingTexts(vs[1..]);
    }
  }

  /** With a plain key, reading the block back gives every volume binding of the service. */
  lemma ReadRenderVolumes(net: Network)
    ensures ReadListBlock(RenderVolumes(CaService(net)), "volumes") == Some([CaHostFolder(net) + ":" + CaContainerHome])
  {
    var svc := CaService(net);
    assert RenderVolumes(svc)[1..] == RenderItems(svc.volumes);
    ReadRenderItems(svc.volumes);
    assert BindingTexts(svc.volumes) == [CaHostFolder(net) + ":" + CaContainerHome];
  }

  /** As written, the `volumes:;` line is not a `volumes` key: the binding of the CA home is lost. */
  lemma AsWrittenVolumesUnreadable(net: Network)
    ensures ReadListBlock(RenderVolumesAsWritten(CaService(net)), "volumes").None?
  {
    var line := RenderVolumesAsWritten(CaService(net))[0];
    assert line[|line| - 1] == ';';
    assert (KeyIndent + "volumes:")[|KeyIndent + "volumes:"| - 1] == ':';
  }
}
