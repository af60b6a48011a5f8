/**
 * The older CA generator (`crypto/dockerComposeCa.yaml.ts`): a root CA service
 * `rca.<org.name>` on the fixed port 7054 with TLS always on, its start decision with no
 * readiness check, and the two ownership helpers, modelled through their shell outcomes.
 */
module RcaCompose {
  import opened Wrappers
  import opened Text
  import opened Topology
  import opened Compose
  import opened Docker

  /** The generator's options: the network root folder, the compose network, the organization. */
  datatype YamlOptions = YamlOptions(networkRootPath: string, composeNetwork: string, org: Org)

  const RcaPort: nat := 7054
  const TlsEnabledVar := "FABRIC_CA_SERVER_TLS_ENABLED"

  /** `rca.<org.name>`: the service key and container name of the root CA. */
  function RcaName(orgName: string): string {
    "rca." + orgName
  }

  /** `ca.<org.name>.tls`: the service `startTlsCa` asks the engine to compose. */
  function TlsCaServiceName(orgName: string): string {
    "ca." + orgName + ".tls"
  }

  /** The bootstrap identity `rca-<org>-admin:rca-<org>-adminpw`. */
  function BootstrapIdentity(orgName: string): string {
    "rca-" + orgName + "-admin:rca-" + orgName + "-adminpw"
  }

  function RcaEnvironment(orgName: string): seq<EnvVar> {
    [ EnvVar("FABRIC_CA_SERVER_HOME", "/tmp/hyperledger/fabric-ca/crypto"),
      EnvVar("FABRIC_CA_SERVER_CA_NAME", RcaName(orgName)),
      EnvVar(TlsEnabledVar, "true"),
      EnvVar("FABRIC_CA_SERVER_CSR_CN", "ca.tls"),
      EnvVar("FABRIC_CA_SERVER_CSR_HOSTS", "0.0.0.0"),
      EnvVar("FABRIC_CA_SERVER_DEBUG", "true")]
  }

  /**
   * The root CA service: keyed and named `rca.<org.name>`, the untagged fabric-ca image, port
   * 7054 on both sides whatever the organization's CA options say.
   */
  function RcaService(o: YamlOptions): (svc: Service)
    ensures svc.key == RcaName(o.org.name) && svc.containerName == RcaName(o.org.name)
    ensures svc.ports == [PortMap(Port(RcaPort), Port(RcaPort))]
    ensures svc.networks == [o.composeNetwork]
  {
    Service(
      RcaName(o.org.name),
      RcaName(o.org.name),
      Some("hyperledger/fabric-ca"),
      Some("sh -c 'fabric-ca-server start -d -b " + BootstrapIdentity(o.org.name)
           + " --port 7054 --cfg.identities.allowremove'"),
      None,
      RcaEnvironment(o.org.name),
      [PortMap(Port(RcaPort), Port(RcaPort))],
      [VolumeBinding(o.networkRootPath + "/organizations/fabric-ca/" + o.org.name, "/tmp/hyperledger/fabric-ca")],
      [],
      [o.composeNetwork])
  }

  function RcaComposeFile(o: YamlOptions): (f: ComposeFile)
    ensures |f.services| == 1 && Declares(f, RcaName(o.org.name))
  {
    var f := ComposeFile("2", [], [o.composeNetwork], [RcaService(o)]);
    assert f.services[0].key == RcaName(o.org.name);
    f
  }

  /** The root CA runs with TLS enabled, whether or not the organization is secure. */
  lemma RcaTlsAlwaysEnabled(o: YamlOptions)
    ensures var v := EnvValue(RcaService(o).environment, TlsEnabledVar);
      v.Some? && ParseBool(v.value) == Some(true)
  {
    var env := RcaService(o).environment;
    assert env[2] == EnvVar(TlsEnabledVar, "true");
    assert forall i :: 0 <= i < 2 ==> env[i].name != TlsEnabledVar;
  }

  /** Two organizations' root CA services never share a key. */
  lemma RcaNameInjective(a: string, b: string)
    ensures RcaName(a) == RcaName(b) ==> a == b
  {
    if RcaName(a) == RcaName(b) {
      assert a == RcaName(a)[4..];
    }
  }

  // ---- ownership helpers ----

  /**
   * `changeOwnerShipWithPassword`: pipe the password into `sudo chown`; the promise resolves
   * exactly when the shell's exit code is 0.
   */
  function ChangeOwnerShipWithPassword(exitCode: int): (r: Reply<()>)
    ensures r.Ok? <==> exitCode == 0
  {
    if exitCode == 0 then Ok(()) else Fail("")
  }

  /**
   * `changeOwnership`: `chown -R 1001:1001` through a prompting `sudo`; rejected when `sudo`
   * reports an error (output on stderr is only logged).
   */
  function ChangeOwnershipPrompt(sudoError: Option<string>): (r: Reply<()>)
    ensures r.Ok? <==> sudoError.None?
    ensures r.Fail? ==> r.reason == sudoError.value
  {
    if sudoError.Some? then Fail(sudoError.value) else Ok(())
  }

  // ---- start decisions ----

  /**
   * `startOrgCa`: true with nothing composed when `rca.<org.name>` exists; otherwise compose
   * it and change the ownership of the network root, with no readiness check. A failing
   * existence check or compose, or a non-zero exit code, is caught and gives false.
   */
  function StartOrgCa(o: YamlOptions, running: set<string>, check: Reply<()>, compose: Reply<()>,
                      exitCode: int): (r: Lifecycle)
    ensures check.Fail? ==> r == Lifecycle(false, running, [ContainerExists(RcaName(o.org.name))])
    ensures check.Ok? && RcaName(o.org.name) in running ==>
      r == Lifecycle(true, running, [ContainerExists(RcaName(o.org.name))])
    ensures check.Ok? && RcaName(o.org.name) !in running ==>
      |r.calls| >= 2 && r.calls[..2] == [ContainerExists(RcaName(o.org.name)), ComposeUp(RcaName(o.org.name))]
    ensures r.ok <==> check.Ok? && (RcaName(o.org.name) in running || (compose.Ok? && exitCode == 0))
    ensures forall i :: 1 <= i < |r.calls| ==> !r.calls[i].ContainerExists? && !r.calls[i].Wait?
    ensures r.running ==
      if check.Ok? && RcaName(o.org.name) !in running && compose.Ok? then running + {RcaName(o.org.name)} else running
    ensures check.Ok? && RcaName(o.org.name) !in running && compose.Ok? ==>
      r.calls == [ContainerExists(RcaName(o.org.name)), ComposeUp(RcaName(o.org.name)),
                  ChangeOwnership(o.networkRootPath, true)]
  {
    var rca := RcaName(o.org.name);
    if check.Fail? then Lifecycle(false, running, [ContainerExists(rca)])
    else if rca in running then Lifecycle(true, running, [ContainerExists(rca)])
    else
      var up := [ContainerExists(rca), ComposeUp(rca)];
      if compose.Fail? then Lifecycle(false, running, up)
      else
        Lifecycle(ChangeOwnerShipWithPassword(exitCode).Ok?, running + {rca},
                  up + [ChangeOwnership(o.networkRootPath, true)])
  }

  /** What `startTlsCa` did, and the error it caught and logged, if any. */
  datatype TlsStart = TlsStart(done: Lifecycle, logged: Option<string>)

  /**
   * `startTlsCa`: compose `ca.<org.name>.tls`, then change the ownership of `<root>/<org.name>`
   * through the prompting helper. The first error is caught and logged, so the call always
   * returns normally.
   */
  function StartTlsCa(o: YamlOptions, running: set<string>, compose: Reply<()>, sudoError: Option<string>)
    : (r: TlsStart)
    ensures r.done.ok
    ensures |r.done.calls| >= 1 && r.done.calls[0] == ComposeUp(TlsCaServiceName(o.org.name))
    ensures |r.done.calls| == 2 <==> compose.Ok?
    ensures compose.Ok? ==> r.done.calls[1] == ChangeOwnership(o.networkRootPath + "/" + o.org.name, false)
    ensures r.done.running == if compose.Ok? then running + {TlsCaServiceName(o.org.name)} else running
    ensures r.logged == if compose.Fail? then Some(compose.reason) else sudoError
  {
    var up := [ComposeUp(TlsCaServiceName(o.org.name))];
    if compose.Fail? then TlsStart(Lifecycle(true, running, up), Some(compose.reason))
    else
      var chown := ChangeOwnershipPrompt(sudoError);
      TlsStart(Lifecycle(true, running + {TlsCaServiceName(o.org.name)},
                         up + [ChangeOwnership(o.networkRootPath + "/" + o.org.name, false)]),
               if chown.Fail? then Some(chown.reason) else None)
  }

  /** The service `startTlsCa` composes is not declared by the generator's own compose file. */
  lemma StartTlsCaServiceUndeclared(o: YamlOptions, running: set<string>, compose: Reply<()>,
                                    sudoError: Option<string>)
    ensures Composes(StartTlsCa(o, running, compose, sudoError).done.calls, TlsCaServiceName(o.org.name))
    ensures !Declares(RcaComposeFile(o), TlsCaServiceName(o.org.name))
  {
    var r := StartTlsCa(o, running, compose, sudoError);
    assert r.done.calls[0] == ComposeUp(TlsCaServiceName(o.org.name));
    assert RcaName(o.org.name)[0] == 'r' && TlsCaServiceName(o.org.name)[0] == 'c';
  }

  /**
   * Once the root CA is in the running set, starting it again composes nothing and changes
   * nothing; it succeeds exactly when the existence check answers. A first start whose check
   * answers and whose compose succeeds leaves the root CA in the running set.
   */
  lemma StartOrgCaIdempotent(o: YamlOptions, running: set<string>, check: Reply<()>, compose: Reply<()>,
                             exitCode: int, check': Reply<()>, compose': Reply<()>, exitCode': int)
    ensures var r := StartOrgCa(o, running, check, compose, exitCode);
      check.Ok? && compose.Ok? ==> RcaName(o.org.name) in r.running
    ensures var r := StartOrgCa(o, running, check, compose, exitCode);
      var r' := StartOrgCa(o, r.running, check', compose', exitCode');
      RcaName(o.org.name) in r.running ==>
        && (r'.ok <==> check'.Ok?)
        && r'.running == r.running
        && r'.calls == [ContainerExists(RcaName(o.org.name))]
        && !Composes(r'.calls, RcaName(o.org.name))
  {
    var r := StartOrgCa(o, running, check, compose, exitCode);
    var r' := StartOrgCa(o, r.running, check', compose', exitCode');
    if RcaName(o.org.name) in r.running {
      assert r'.calls[0] == ContainerExists(RcaName(o.org.name));
    }
  }
}
