/**
 * `buildCertificate`: save the client profile, create the MSP folders, enroll the CA
 * registrar, register and enroll the organization admin, write the admin and organization MSP
 * material, then register, enroll and materialize every peer in order (plus its TLS profile
 * when the organization is secure). The run is a trace of effects; collaborator answers are
 * inputs, and the result is the boolean the source returns.
 */
module OrgCerts {
  import opened Wrappers
  import opened Topology
  import opened Membership
  import opened MspLayout
  import NodeOu

  /** Fabric CA roles of the organization admin and of peers. */
  const AdminRole := "admin"
  const PeerRole := "peer"

  /** What the run does to the outside world, in order. */
  datatype Effect =
    /** `save()` of the CA client profile. */
    | SaveProfile
    | MakeDir(path: Path)
    | WriteFile(path: Path, content: string)
    | CopyFile(source: Path, target: Path)
    | CaRequest(call: CaCall)

  /** The CA registrar account the generator is built with (`admin`/`adminpw` by default). */
  datatype AdminCaAccount = AdminCaAccount(name: string, password: string)

  /** The registrar account and the `MAX_ENROLLMENT_COUNT` every registration carries. */
  datatype Settings = Settings(registrar: AdminCaAccount, maxEnrollments: int)

  /**
   * A peer's CSR from the host CSR helper (not part of this model): its PEM and its private
   * key, and nothing else. `addUser` and `enrollTls` take it as their CSR request, but read
   * only its `san`, which it does not have.
   */
  datatype HostCsr = HostCsr(csr: string, key: string)

  /** The answers one peer's processing receives. */
  datatype PeerReplies = PeerReplies(hostCsr: Option<HostCsr>, user: CaReplies, tls: CaReplies)

  /** All collaborator answers of one run. */
  datatype BuildReplies = BuildReplies(
    save: Reply<()>,
    initCa: Reply<()>,
    clientMspId: Option<string>,
    registrarEnroll: Reply<Enrollment>,
    orgAdmin: CaReplies,
    peers: nat -> PeerReplies)

  /** The outcome of a run or of part of one: success flag, wallet, effects performed. */
  datatype Report = Report(ok: bool, wallet: Wallet, effects: seq<Effect>)

  // ---- effect classification ----

  predicate IsMaterialWrite(e: Effect) {
    e.WriteFile? || e.CopyFile?
  }

  predicate IsPeerRegister(e: Effect) {
    e.CaRequest? && e.call.Register? && e.call.registration.role == PeerRole
  }

  predicate IsAdminEnroll(org: Org, e: Effect) {
    e.CaRequest? && e.call.Enroll? && e.call.enrollment.enrollmentID == org.adminUser
  }

  /** A TLS effect: a copy of the TLS CA certificate, a TLS enrollment, or a write into a `tls` folder. */
  predicate IsTlsEffect(e: Effect) {
    || e.CopyFile?
    || (e.CaRequest? && e.call.Enroll? && e.call.enrollment.profile == Some("tls"))
    || (e.WriteFile? && |e.path| >= 2 && e.path[|e.path| - 2] == "tls")
  }

  ghost predicate NoMakeDir(es: seq<Effect>) {
    forall i :: 0 <= i < |es| ==> !es[i].MakeDir?
  }

  ghost predicate NoTls(es: seq<Effect>) {
    forall i :: 0 <= i < |es| ==> !IsTlsEffect(es[i])
  }

  ghost predicate NoPeerRegister(es: seq<Effect>) {
    forall i :: 0 <= i < |es| ==> !IsPeerRegister(es[i])
  }

  /** Every folder is created before any file is written or copied. */
  ghost predicate DirsFirst(es: seq<Effect>) {
    forall i, j :: 0 <= i < j < |es| && es[j].MakeDir? ==> !IsMaterialWrite(es[i])
  }

  /** Every peer registration comes after the organization admin has been enrolled. */
  ghost predicate AdminFirst(org: Org, es: seq<Effect>) {
    forall i :: 0 <= i < |es| && IsPeerRegister(es[i]) ==>
      exists j :: 0 <= j < i && IsAdminEnroll(org, es[j])
  }

  // ---- effect builders ----

  function CaEffects(calls: seq<CaCall>): (es: seq<Effect>)
    ensures |es| == |calls|
    ensures forall i :: 0 <= i < |es| ==> es[i] == CaRequest(calls[i])
  {
    if |calls| == 0 then [] else [CaRequest(calls[0])] + CaEffects(calls[1..])
  }

  function MakeDirs(paths: seq<Path>): (es: seq<Effect>)
    ensures |es| == |paths|
    ensures forall i :: 0 <= i < |es| ==> es[i] == MakeDir(paths[i])
  {
    if |paths| == 0 then [] else [MakeDir(paths[0])] + MakeDirs(paths[1..])
  }

  function CertFile(fullName: string): string {
    "ca." + fullName + "-cert.pem"
  }

  function AdminCertFile(fullName: string): string {
    "Admin@" + fullName + "-cert.pem"
  }

  function TlsCaFile(fullName: string): string {
    "tlsca." + fullName + "-cert.pem"
  }

  /** The NodeOU descriptor text `generateConfigOUFile` writes. */
  function NodeOuFile(net: Network): string {
    NodeOu.FileContent(NodeOu.ConfigFor(net.org.fullName))
  }

  function AdminParams(org: Org, maxEnrollments: int): RegisterRequest {
    RegisterRequest(org.adminUser, org.adminUserPass, AdminRole, maxEnrollments, "")
  }

  /** A peer registers as `<peer.name>.<fullName>` with secret `<peer.name>pw` and role peer. */
  function PeerParams(org: Org, peer: Peer, maxEnrollments: int): RegisterRequest {
    RegisterRequest(PeerFullName(org, peer), peer.name + "pw", PeerRole, maxEnrollments, "")
  }

  /** The peer's TLS enrollment: same ID, the secret `addUser` returned, profile `tls`. */
  function TlsRequest(org: Org, peer: Peer, secret: string): EnrollRequest {
    EnrollRequest(PeerFullName(org, peer), secret, Some("tls"), None)
  }

  /**
   * The SAN host a CSR request built from a host CSR yields: the missing `san` field is
   * `undefined`, and the template string around it turns that into this text.
   */
  const UndefinedSan := "undefined"

  /** The CSR request `addUser` and `enrollTls` receive for a peer: present with its host CSR. */
  function CsrRequestOf(hostCsr: Option<HostCsr>): (r: Option<CsrRequest>)
    ensures r.Some? <==> hostCsr.Some?
  {
    if hostCsr.Some? then Some(CsrRequest(UndefinedSan)) else None
  }

  /** The admin user MSP and organization MSP files written from the admin's enrollment. */
  function AdminMaterial(net: Network, admin: Enrollment): (es: seq<Effect>)
    ensures forall i :: 0 <= i < |es| ==> IsMaterialWrite(es[i])
    ensures !net.org.isSecure ==> NoTls(es)
    ensures NoPeerRegister(es)
  {
    var full := net.org.fullName;
    var adminMsp := AdminCertsMspDir(net);
    var orgMsp := OrgMspPath(net);
    [ WriteFile(adminMsp + ["cacerts", CertFile(full)], admin.rootCertificate),
      WriteFile(adminMsp + ["keystore", "priv_sk"], admin.key.bytes),
      WriteFile(adminMsp + ["signcerts", AdminCertFile(full)], admin.certificate)]
    + (if net.org.isSecure then
        [ CopyFile(FabricCaCert(net), adminMsp + ["tlscacerts", TlsCaFile(full)]),
          CopyFile(FabricCaCert(net), orgMsp + ["tlscacerts", TlsCaFile(full)])]
       else [])
    + [ WriteFile(orgMsp + ["cacerts", CertFile(full)], admin.rootCertificate),
        WriteFile(orgMsp + ["admincerts", AdminCertFile(full)], admin.certificate),
        WriteFile(orgMsp + ["config.yaml"], NodeOuFile(net))]
  }

  /** A peer's MSP files: the admin certificate, the root certificate, its key and certificate. */
  function PeerMspMaterial(net: Network, peer: Peer, admin: Enrollment, certificate: string, keyPem: string)
    : (es: seq<Effect>)
    ensures NoTls(es) && NoPeerRegister(es) && NoMakeDir(es)
  {
    var full := net.org.fullName;
    var msp := PeerMspPath(net, peer);
    [ WriteFile(msp + ["admincerts", AdminCertFile(full)], admin.certificate),
      WriteFile(msp + ["cacerts", CertFile(full)], admin.rootCertificate),
      WriteFile(msp + ["keystore", "priv_sk"], keyPem),
      WriteFile(msp + ["signcerts", PeerFullName(net.org, peer) + "-cert.pem"], certificate)]
  }

  /** A peer's `tls/ca.crt`, `tls/server.crt` and `tls/server.key`. */
  function PeerTlsMaterial(net: Network, peer: Peer, tls: Enrollment, keyPem: string): (es: seq<Effect>)
    ensures forall i :: 0 <= i < |es| ==> IsTlsEffect(es[i])
    ensures NoPeerRegister(es) && NoMakeDir(es)
  {
    var dir := PeerTlsPath(net, peer);
    [ WriteFile(dir + ["ca.crt"], tls.rootCertificate),
      WriteFile(dir + ["server.crt"], tls.certificate),
      WriteFile(dir + ["server.key"], keyPem)]
  }

  // ---- effect lists under concatenation ----

  lemma ConcatClean(a: seq<Effect>, b: seq<Effect>)
    ensures NoMakeDir(a) && NoMakeDir(b) ==> NoMakeDir(a + b)
    ensures NoTls(a) && NoTls(b) ==> NoTls(a + b)
    ensures NoPeerRegister(a) && NoPeerRegister(b) ==> NoPeerRegister(a + b)
  {
    if NoMakeDir(a) && NoMakeDir(b) {
      forall i | 0 <= i < |a + b| ensures !(a + b)[i].MakeDir? {
        if i >= |a| { assert (a + b)[i] == b[i - |a|]; }
      }
    }
    if NoTls(a) && NoTls(b) {
      forall i | 0 <= i < |a + b| ensures !IsTlsEffect((a + b)[i]) {
        if i >= |a| { assert (a + b)[i] == b[i - |a|]; }
      }
    }
    if NoPeerRegister(a) && NoPeerRegister(b) {
      forall i | 0 <= i < |a + b| ensures !IsPeerRegister((a + b)[i]) {
        if i >= |a| { assert (a + b)[i] == b[i - |a|]; }
      }
    }
  }

  lemma ConcatAssoc(a: seq<Effect>, b: seq<Effect>, c: seq<Effect>)
    ensures a + b + c == a + (b + c)
  {
  }

  lemma SliceRight(a: seq<Effect>, b: seq<Effect>, k: nat)
    requires |a| <= k <= |a| + |b|
    ensures (a + b)[k..] == b[k - |a|..]
  {
  }

  lemma SliceConcat(a: seq<Effect>, b: seq<Effect>, k: nat)
    requires k <= |a|
    ensures (a + b)[..k] == a[..k] && (a + b)[k..] == a[k..] + b
  {
  }

  /** No call is an enrollment with a profile (in particular none is a TLS enrollment). */
  predicate PlainEnrolls(calls: seq<CaCall>) {
    forall i :: 0 <= i < |calls| ==> calls[i].Enroll? ==> calls[i].enrollment.profile == None
  }

  /** No call registers an identity with the peer role. */
  predicate NoPeerRoleRegister(calls: seq<CaCall>) {
    forall i :: 0 <= i < |calls| ==> calls[i].Register? ==> calls[i].registration.role != PeerRole
  }

  /** The registrar's enrollment is a single plain enrollment. */
  lemma RegistrarCallsClean(wallet: Wallet, config: ClientConfig, mspId: string, enroll: Reply<Enrollment>)
    ensures var calls := EnrollCaAdmin(wallet, config, mspId, enroll).calls;
      PlainEnrolls(calls) && NoPeerRoleRegister(calls)
  {
  }

  /**
   * `addUser` makes one registration, with the requested role, then one plain enrollment; so
   * only a user with the peer role is registered as a peer.
   */
  lemma UserCallsClean(wallet: Wallet, config: ClientConfig, params: RegisterRequest, mspId: string,
                       csrObj: Option<CsrRequest>, replies: CaReplies)
    ensures var calls := AddUser(wallet, config, params, mspId, csrObj, replies).calls;
      && PlainEnrolls(calls)
      && (params.role != PeerRole ==> NoPeerRoleRegister(calls))
      && (|calls| >= 1 ==> NoPeerRoleRegister(calls[1..]))
  {
    var calls := AddUser(wallet, config, params, mspId, csrObj, replies).calls;
    if |calls| >= 1 {
      assert calls[0] == Register(params, config.adminName);
    }
  }

  /** CA calls other than registrations with the peer role and TLS enrollments are clean. */
  lemma CaEffectsClean(calls: seq<CaCall>)
    ensures NoMakeDir(CaEffects(calls))
    ensures PlainEnrolls(calls) ==> NoTls(CaEffects(calls))
    ensures NoPeerRoleRegister(calls) ==> NoPeerRegister(CaEffects(calls))
  {
  }

  // ---- one peer ----

  /** Whether `addUser` succeeds for the peer, read off the answers and the wallet. */
  predicate UserEnrolls(config: ClientConfig, id: string, pr: PeerReplies, wallet: Wallet) {
    && id !in wallet && config.adminName in wallet
    && pr.user.register.Ok?
    && (pr.hostCsr.Some? ==> pr.user.keyGen.Ok?)
    && pr.user.enroll.Ok?
  }

  predicate TlsEnrolls(pr: PeerReplies) {
    (pr.hostCsr.Some? ==> pr.tls.keyGen.Ok?) && pr.tls.enroll.Ok?
  }

  /**
   * The TLS part of a secure peer's iteration: copy the TLS CA certificate; an empty secret
   * raises `AlreadyEnrolledException`, which skips to the next peer; otherwise enroll the TLS
   * profile with that secret (null aborts the run) and write the TLS files, whose key file
   * holds the key `enrollTls` kept (the generator writes `AsWrittenKeyPem` instead).
   */
  function PeerTlsPhase(net: Network, config: ClientConfig, peer: Peer, pr: PeerReplies,
                        wallet: Wallet, secret: string): (r: Report)
    requires PeerFullName(net.org, peer) in wallet && config.adminName in wallet
    ensures r.wallet == wallet
    ensures NoMakeDir(r.effects) && NoPeerRegister(r.effects)
    ensures r.ok <==> secret == "" || TlsEnrolls(pr)
    ensures secret == "" ==> |r.effects| == 1 && r.effects[0].CopyFile?
    ensures secret != "" && (pr.hostCsr.Some? ==> pr.tls.keyGen.Ok?) ==>
      |r.effects| >= 2 && r.effects[1].CaRequest? && r.effects[1].call.Enroll?
      && r.effects[1].call.enrollment.(csr := None) == TlsRequest(net.org, peer, secret)
  {
    var copy := [CopyFile(FabricCaCert(net), PeerMspPath(net, peer) + ["tlscacerts", TlsCaFile(net.org.fullName)])];
    if secret == "" then
      Report(true, wallet, copy)
    else
      var csrReq := CsrRequestOf(pr.hostCsr);
      var tls := EnrollTls(wallet, TlsRequest(net.org, peer, secret), csrReq, config.adminName, pr.tls);
      var calls := CaEffects(tls.calls);
      CaEffectsClean(tls.calls);
      ConcatClean(copy, calls);
      assert (pr.hostCsr.Some? ==> pr.tls.keyGen.Ok?) ==>
        |tls.calls| == 1 && (copy + calls)[1] == CaRequest(tls.calls[0]);
      assert TlsRequest(net.org, peer, secret).(csr := None) == TlsRequest(net.org, peer, secret);
      if tls.result.None? then Report(false, wallet, copy + calls)
      else
        var t := tls.result.value;
        var tlsKey := t.key.bytes;
        var files := PeerTlsMaterial(net, peer, t, tlsKey);
        ConcatClean(copy + calls, files);
        Report(true, wallet, copy + calls + files)
  }

  /**
   * One iteration of the peer loop: NodeOU file, `addUser` (null aborts the run), MSP files,
   * then the TLS part when the organization is secure. The key file holds the key `addUser`
   * kept, the one its certificate was issued for; the generator writes the host CSR's key
   * instead (`AsWrittenKeyPem`).
   */
  function PeerStep(net: Network, s: Settings, config: ClientConfig, mspId: string, admin: Enrollment,
                    peer: Peer, pr: PeerReplies, wallet: Wallet): (r: Report)
    ensures Grows(wallet, r.wallet)
    ensures r.wallet.Keys <= wallet.Keys + {PeerFullName(net.org, peer)}
    ensures r.ok ==> PeerFullName(net.org, peer) in r.wallet
    ensures r.ok <==>
      && UserEnrolls(config, PeerFullName(net.org, peer), pr, wallet)
      && (net.org.isSecure && pr.user.register.value != "" ==> TlsEnrolls(pr))
  {
    var user := AddUser(wallet, config, PeerParams(net.org, peer, s.maxEnrollments), mspId,
                        CsrRequestOf(pr.hostCsr), pr.user);
    var head := [WriteFile(PeerMspPath(net, peer) + ["config.yaml"], NodeOuFile(net))] + CaEffects(user.calls);
    if user.result.None? then Report(false, user.wallet, head)
    else
      var enr := user.result.value.enrollment;
      var files := head + PeerMspMaterial(net, peer, admin, enr.certificate, enr.key.bytes);
      if !net.org.isSecure then Report(true, user.wallet, files)
      else
        var tls := PeerTlsPhase(net, config, peer, pr, user.wallet, user.result.value.secret);
        Report(tls.ok, user.wallet, files + tls.effects)
  }

  /** The effects of a peer iteration up to and including its MSP files. */
  function PeerHead(net: Network, s: Settings, config: ClientConfig, mspId: string, admin: Enrollment,
                    peer: Peer, pr: PeerReplies, wallet: Wallet): seq<Effect>
  {
    var user := AddUser(wallet, config, PeerParams(net.org, peer, s.maxEnrollments), mspId,
                        CsrRequestOf(pr.hostCsr), pr.user);
    var head := [WriteFile(PeerMspPath(net, peer) + ["config.yaml"], NodeOuFile(net))] + CaEffects(user.calls);
    if user.result.None? then head
    else
      var enr := user.result.value.enrollment;
      head + PeerMspMaterial(net, peer, admin, enr.certificate, enr.key.bytes)
  }

  lemma PeerHeadEffects(net: Network, s: Settings, config: ClientConfig, mspId: string, admin: Enrollment,
                        peer: Peer, pr: PeerReplies, wallet: Wallet)
    ensures var h := PeerHead(net, s, config, mspId, admin, peer, pr, wallet);
      && NoMakeDir(h) && NoTls(h)
      && |h| >= 1 && NoPeerRegister(h[..1]) && (|h| >= 2 ==> NoPeerRegister(h[2..]))
      && (config.adminName in wallet && PeerFullName(net.org, peer) !in wallet ==>
           |h| >= 2 && h[1] == CaRequest(Register(PeerParams(net.org, peer, s.maxEnrollments), config.adminName)))
  {
    var user := AddUser(wallet, config, PeerParams(net.org, peer, s.maxEnrollments), mspId,
                        CsrRequestOf(pr.hostCsr), pr.user);
    var ou := [WriteFile(PeerMspPath(net, peer) + ["config.yaml"], NodeOuFile(net))];
    var calls := CaEffects(user.calls);
    UserCallsClean(wallet, config, PeerParams(net.org, peer, s.maxEnrollments), mspId,
                   CsrRequestOf(pr.hostCsr), pr.user);
    CaEffectsClean(user.calls);
    ConcatClean(ou, calls);
    if |calls| >= 1 {
      assert calls[1..] == CaEffects(user.calls[1..]);
      CaEffectsClean(user.calls[1..]);
      SliceRight(ou, calls, 2);
    }
    if user.result.Some? {
      var enr := user.result.value.enrollment;
      var msp := PeerMspMaterial(net, peer, admin, enr.certificate, enr.key.bytes);
      ConcatClean(ou + calls, msp);
      ConcatClean(calls[1..], msp);
      ConcatAssoc(ou, calls, msp);
      SliceRight(ou, calls + msp, 2);
      SliceConcat(calls, msp, 1);
    }
  }

  lemma PeerStepSplits(net: Network, s: Settings, config: ClientConfig, mspId: string, admin: Enrollment,
                       peer: Peer, pr: PeerReplies, wallet: Wallet)
    ensures var r := PeerStep(net, s, config, mspId, admin, peer, pr, wallet);
      var h := PeerHead(net, s, config, mspId, admin, peer, pr, wallet);
      exists tail :: r.effects == h + tail && NoMakeDir(tail) && NoPeerRegister(tail)
        && (!net.org.isSecure ==> tail == [])
  {
    var r := PeerStep(net, s, config, mspId, admin, peer, pr, wallet);
    var h := PeerHead(net, s, config, mspId, admin, peer, pr, wallet);
    var user := AddUser(wallet, config, PeerParams(net.org, peer, s.maxEnrollments), mspId,
                        CsrRequestOf(pr.hostCsr), pr.user);
    if user.result.Some? && net.org.isSecure {
      var tls := PeerTlsPhase(net, config, peer, pr, user.wallet, user.result.value.secret);
      assert r.effects == h + tls.effects;
    } else {
      assert r.effects == h + [];
    }
  }

  /**
   * What a peer iteration does to the outside world: no folder creation, nothing TLS when the
   * organization is not secure, and exactly one peer registration, second, made as the
   * registrar, when the peer is new and the registrar present.
   */
  lemma PeerStepEffects(net: Network, s: Settings, config: ClientConfig, mspId: string, admin: Enrollment,
                        peer: Peer, pr: PeerReplies, wallet: Wallet)
    ensures var r := PeerStep(net, s, config, mspId, admin, peer, pr, wallet);
      && NoMakeDir(r.effects)
      && (!net.org.isSecure ==> NoTls(r.effects))
      && |r.effects| >= 1 && NoPeerRegister(r.effects[..1])
      && (|r.effects| >= 2 ==> NoPeerRegister(r.effects[2..]))
      && (config.adminName in wallet && PeerFullName(net.org, peer) !in wallet ==>
           |r.effects| >= 2
           && r.effects[1] == CaRequest(Register(PeerParams(net.org, peer, s.maxEnrollments), config.adminName)))
  {
    var r := PeerStep(net, s, config, mspId, admin, peer, pr, wallet);
    var h := PeerHead(net, s, config, mspId, admin, peer, pr, wallet);
    PeerHeadEffects(net, s, config, mspId, admin, peer, pr, wallet);
    PeerStepSplits(net, s, config, mspId, admin, peer, pr, wallet);
    var tail :| r.effects == h + tail && NoMakeDir(tail) && NoPeerRegister(tail)
      && (!net.org.isSecure ==> tail == []);
    ConcatClean(h, tail);
    SliceConcat(h, tail, 1);
    if |h| >= 2 {
      SliceConcat(h, tail, 2);
      ConcatClean(h[2..], tail);
    }
  }

  /**
   * The key file the generator writes for a peer (`keystore/priv_sk`, and `tls/server.key`
   * likewise): the host CSR's key when there is a host CSR, otherwise the enrolled key.
   */
  function AsWrittenKeyPem(hostCsr: Option<HostCsr>, enrolled: Enrollment): (pem: string)
    ensures hostCsr.None? ==> pem == enrolled.key.bytes
  {
    if hostCsr.Some? then hostCsr.value.key else enrolled.key.bytes
  }

  /**
   * As written, a peer with a host CSR gets the host CSR's key in its key file, while `addUser`
   * sends the CA a CSR for a key of its own and stores that key in the wallet: whenever the two
   * keys differ, the key file does not match the certificate.
   */
  lemma AsWrittenKeyPemMismatch(net: Network, s: Settings, config: ClientConfig, mspId: string,
                                peer: Peer, hostCsr: HostCsr, replies: CaReplies, wallet: Wallet)
    requires UserEnrolls(config, PeerFullName(net.org, peer), PeerReplies(Some(hostCsr), replies, replies), wallet)
    requires hostCsr.key != replies.keyGen.value.bytes
    ensures var u := AddUser(wallet, config, PeerParams(net.org, peer, s.maxEnrollments), mspId,
                             CsrRequestOf(Some(hostCsr)), replies);
      && u.result.Some? && |u.calls| == 2
      && u.calls[1].enrollment.csr.Some?
      && u.calls[1].enrollment.csr.value.subjectKey == replies.keyGen.value
      && u.wallet[PeerFullName(net.org, peer)].key == replies.keyGen.value
      && AsWrittenKeyPem(Some(hostCsr), u.result.value.enrollment) != u.result.value.enrollment.key.bytes
  {
    var id := PeerFullName(net.org, peer);
    var u := AddUser(wallet, config, PeerParams(net.org, peer, s.maxEnrollments), mspId,
                     CsrRequestOf(Some(hostCsr)), replies);
    assert PeerParams(net.org, peer, s.maxEnrollments).enrollmentID == id;
    var c := GenerateCsr(id, UndefinedSan, replies.keyGen);
    assert u.calls[1].enrollment.csr == Some(c.value.csr);
  }

  /**
   * A peer's `keystore/priv_sk` and `signcerts` files hold the key and the certificate the
   * wallet stores for the peer, so the two files form one key pair.
   */
  lemma PeerStepStoresKey(net: Network, s: Settings, config: ClientConfig, mspId: string, admin: Enrollment,
                          peer: Peer, pr: PeerReplies, wallet: Wallet)
    requires UserEnrolls(config, PeerFullName(net.org, peer), pr, wallet)
    ensures var r := PeerStep(net, s, config, mspId, admin, peer, pr, wallet);
      && PeerFullName(net.org, peer) in r.wallet
      && var stored := r.wallet[PeerFullName(net.org, peer)];
      && stored.certificate == pr.user.enroll.value.certificate
      && stored.key == (if pr.hostCsr.Some? then pr.user.keyGen.value else pr.user.enroll.value.key)
      && WriteFile(PeerMspPath(net, peer) + ["keystore", "priv_sk"], stored.key.bytes) in r.effects
      && WriteFile(PeerMspPath(net, peer) + ["signcerts", PeerFullName(net.org, peer) + "-cert.pem"],
                   stored.certificate) in r.effects
  {
    var r := PeerStep(net, s, config, mspId, admin, peer, pr, wallet);
    var h := PeerHead(net, s, config, mspId, admin, peer, pr, wallet);
    var params := PeerParams(net.org, peer, s.maxEnrollments);
    assert params.enrollmentID == PeerFullName(net.org, peer);
    var user := AddUser(wallet, config, params, mspId, CsrRequestOf(pr.hostCsr), pr.user);
    var enr := user.result.value.enrollment;
    var head := [WriteFile(PeerMspPath(net, peer) + ["config.yaml"], NodeOuFile(net))] + CaEffects(user.calls);
    var msp := PeerMspMaterial(net, peer, admin, enr.certificate, enr.key.bytes);
    assert h == head + msp;
    assert msp[2] in h && msp[3] in h;
    assert r.wallet == user.wallet;
    PeerStepSplits(net, s, config, mspId, admin, peer, pr, wallet);
  }

  /**
   * With a host CSR, the peer's enrollment sent to the CA carries a CSR for the key the wallet
   * stores, and that CSR's SAN list is the text `undefined` followed by `localhost`.
   */
  lemma PeerStepCsrForStoredKey(net: Network, s: Settings, config: ClientConfig, mspId: string,
                                admin: Enrollment, peer: Peer, pr: PeerReplies, wallet: Wallet)
    requires UserEnrolls(config, PeerFullName(net.org, peer), pr, wallet) && pr.hostCsr.Some?
    ensures var r := PeerStep(net, s, config, mspId, admin, peer, pr, wallet);
      && |r.effects| >= 3 && r.effects[2].CaRequest? && r.effects[2].call.Enroll?
      && r.effects[2].call.enrollment.enrollmentID == PeerFullName(net.org, peer)
      && r.effects[2].call.enrollment.csr.Some?
      && PeerFullName(net.org, peer) in r.wallet
      && r.effects[2].call.enrollment.csr.value.subjectKey == r.wallet[PeerFullName(net.org, peer)].key
      && r.effects[2].call.enrollment.csr.value.subjectAltNames == [UndefinedSan, "localhost"]
  {
    var id := PeerFullName(net.org, peer);
    var r := PeerStep(net, s, config, mspId, admin, peer, pr, wallet);
    var h := PeerHead(net, s, config, mspId, admin, peer, pr, wallet);
    var params := PeerParams(net.org, peer, s.maxEnrollments);
    assert params.enrollmentID == id;
    var user := AddUser(wallet, config, params, mspId, CsrRequestOf(pr.hostCsr), pr.user);
    var enr := user.result.value.enrollment;
    var head := [WriteFile(PeerMspPath(net, peer) + ["config.yaml"], NodeOuFile(net))] + CaEffects(user.calls);
    var msp := PeerMspMaterial(net, peer, admin, enr.certificate, enr.key.bytes);
    assert h == head + msp;
    assert r.wallet == user.wallet;
    assert head[2] == CaRequest(user.calls[1]);
    assert h[2] == head[2];
    PeerStepSplits(net, s, config, mspId, admin, peer, pr, wallet);
    var c := GenerateCsr(id, UndefinedSan, pr.user.keyGen);
    assert user.calls[1].enrollment.csr == Some(c.value.csr);
  }

  /**
   * A secure peer's TLS files: when the TLS enrollment succeeds, `server.crt` is the returned
   * certificate and `server.key` holds the key it was issued for, which is the key of the CSR
   * sent to the CA when there is a host CSR.
   */
  lemma PeerTlsPhaseStoresKey(net: Network, config: ClientConfig, peer: Peer, pr: PeerReplies,
                              wallet: Wallet, secret: string)
    requires PeerFullName(net.org, peer) in wallet && config.adminName in wallet
    requires secret != "" && TlsEnrolls(pr)
    ensures var r := PeerTlsPhase(net, config, peer, pr, wallet, secret);
      var key := if pr.hostCsr.Some? then pr.tls.keyGen.value else pr.tls.enroll.value.key;
      && |r.effects| == 5
      && r.effects[1].CaRequest? && r.effects[1].call.Enroll?
      && (pr.hostCsr.Some? ==>
           && r.effects[1].call.enrollment.csr.Some?
           && r.effects[1].call.enrollment.csr.value.subjectKey == key
           && r.effects[1].call.enrollment.csr.value.subjectAltNames == [UndefinedSan, "localhost"])
      && r.effects[3] == WriteFile(PeerTlsPath(net, peer) + ["server.crt"], pr.tls.enroll.value.certificate)
      && r.effects[4] == WriteFile(PeerTlsPath(net, peer) + ["server.key"], key.bytes)
  {
    var request := TlsRequest(net.org, peer, secret);
    var tls := EnrollTls(wallet, request, CsrRequestOf(pr.hostCsr), config.adminName, pr.tls);
    if pr.hostCsr.Some? {
      var c := GenerateCsr(request.enrollmentID, UndefinedSan, pr.tls.keyGen);
      assert tls.calls[0].enrollment.csr == Some(c.value.csr);
    }
  }

  /**
   * When a secure peer's registration returns an empty secret, no TLS enrollment is attempted:
   * the TLS CA certificate copy is the iteration's last effect and the run goes on.
   */
  lemma PeerStepEmptySecretSkipsTls(net: Network, s: Settings, config: ClientConfig, mspId: string,
                                    admin: Enrollment, peer: Peer, pr: PeerReplies, wallet: Wallet)
    requires UserEnrolls(config, PeerFullName(net.org, peer), pr, wallet)
    requires net.org.isSecure && pr.user.register.value == ""
    ensures var r := PeerStep(net, s, config, mspId, admin, peer, pr, wallet);
      r.ok && r.effects[|r.effects| - 1].CopyFile? && NoTls(r.effects[..|r.effects| - 1])
  {
    var r := PeerStep(net, s, config, mspId, admin, peer, pr, wallet);
    var h := PeerHead(net, s, config, mspId, admin, peer, pr, wallet);
    PeerHeadEffects(net, s, config, mspId, admin, peer, pr, wallet);
    var user := AddUser(wallet, config, PeerParams(net.org, peer, s.maxEnrollments), mspId,
                        CsrRequestOf(pr.hostCsr), pr.user);
    var tls := PeerTlsPhase(net, config, peer, pr, user.wallet, user.result.value.secret);
    assert r.effects == h + tls.effects;
    assert r.effects[..|r.effects| - 1] == h;
  }

  // ---- the peer loop ----

  /** The enrollment ID of the organization's `i`-th peer. */
  function PeerId(net: Network, i: nat): string
    requires i < |net.org.peers|
  {
    PeerFullName(net.org, net.org.peers[i])
  }

  /** The IDs of the peers from position `k` on. */
  function PeerIdsFrom(net: Network, k: nat): set<string> {
    set i | k <= i < |net.org.peers| :: PeerId(net, i)
  }

  lemma PeerIdsFromSplit(net: Network, k: nat)
    requires k < |net.org.peers|
    ensures PeerIdsFrom(net, k) == {PeerId(net, k)} + PeerIdsFrom(net, k + 1)
  {
    forall id | id in PeerIdsFrom(net, k) ensures id in {PeerId(net, k)} + PeerIdsFrom(net, k + 1) {
      var i :| k <= i < |net.org.peers| && id == PeerId(net, i);
      if i > k { assert id in PeerIdsFrom(net, k + 1); }
    }
  }

  /** Every answer a CA exchange can give is a success. */
  predicate CaAnswersOk(c: CaReplies) {
    c.register.Ok? && c.keyGen.Ok? && c.enroll.Ok?
  }

  predicate PeerAnswersOk(pr: PeerReplies) {
    CaAnswersOk(pr.user) && CaAnswersOk(pr.tls)
  }

  /** The peers from position `k` on have pairwise different IDs, none of them in `taken`. */
  ghost predicate FreshPeersFrom(net: Network, k: nat, taken: set<string>) {
    && (forall i :: k <= i < |net.org.peers| ==> PeerId(net, i) !in taken)
    && (forall i, j :: k <= i < j < |net.org.peers| ==> PeerId(net, i) != PeerId(net, j))
  }

  /** A new peer `k` taken into the wallet, followed by peers fresh for the grown wallet. */
  lemma FreshPeersStep(net: Network, k: nat, taken: set<string>, taken': set<string>)
    requires k < |net.org.peers|
    requires PeerId(net, k) !in taken && PeerId(net, k) in taken' && taken <= taken'
    ensures FreshPeersFrom(net, k + 1, taken') ==> FreshPeersFrom(net, k, taken)
  {
  }

  /**
   * The `for ... of peers` loop from position `k`: each peer in order, stopping at the first
   * failure (the thrown error ends the whole run). `answers(i)` is what the `i`-th peer's
   * exchanges receive.
   */
  function PeersFrom(net: Network, s: Settings, config: ClientConfig, mspId: string, admin: Enrollment,
                     answers: nat -> PeerReplies, k: nat, wallet: Wallet): (r: Report)
    ensures Grows(wallet, r.wallet)
    ensures r.wallet.Keys <= wallet.Keys + PeerIdsFrom(net, k)
    ensures NoMakeDir(r.effects)
    ensures !net.org.isSecure ==> NoTls(r.effects)
    ensures r.ok ==> FreshPeersFrom(net, k, wallet.Keys)
    ensures r.ok ==> forall i :: k <= i < |net.org.peers| ==> PeerId(net, i) in r.wallet
    decreases |net.org.peers| - k
  {
    if k >= |net.org.peers| then Report(true, wallet, [])
    else
      var step := PeerStep(net, s, config, mspId, admin, net.org.peers[k], answers(k), wallet);
      PeerStepEffects(net, s, config, mspId, admin, net.org.peers[k], answers(k), wallet);
      PeerIdsFromSplit(net, k);
      if !step.ok then Report(false, step.wallet, step.effects)
      else
        var rest := PeersFrom(net, s, config, mspId, admin, answers, k + 1, step.wallet);
        ConcatClean(step.effects, rest.effects);
        GrowsTransitive(wallet, step.wallet, rest.wallet);
        FreshPeersStep(net, k, wallet.Keys, step.wallet.Keys);
        Report(rest.ok, rest.wallet, step.effects + rest.effects)
  }

  /**
   * With every CA exchange answering, the loop succeeds exactly when the registrar is in the
   * wallet and the remaining peers are new, pairwise different identities.
   */
  lemma {:induction false} PeersFromSucceeds(net: Network, s: Settings, config: ClientConfig, mspId: string,
                                             admin: Enrollment, answers: nat -> PeerReplies, k: nat,
                                             wallet: Wallet)
    requires forall i :: k <= i < |net.org.peers| ==> PeerAnswersOk(answers(i))
    requires k < |net.org.peers| ==> config.adminName in wallet
    ensures PeersFrom(net, s, config, mspId, admin, answers, k, wallet).ok <==> FreshPeersFrom(net, k, wallet.Keys)
    decreases |net.org.peers| - k
  {
    if k < |net.org.peers| {
      var step := PeerStep(net, s, config, mspId, admin, net.org.peers[k], answers(k), wallet);
      if PeerId(net, k) !in wallet {
        assert step.ok;
        PeersFromSucceeds(net, s, config, mspId, admin, answers, k + 1, step.wallet);
        if FreshPeersFrom(net, k, wallet.Keys) {
          assert step.wallet.Keys <= wallet.Keys + {PeerId(net, k)};
          assert FreshPeersFrom(net, k + 1, step.wallet.Keys);
        }
      }
    }
  }

  // ---- the whole run ----

  /** The CA client configuration: the registrar account and the client's MSP id, if any. */
  function RegistrarConfig(s: Settings, clientMspId: Option<string>): ClientConfig {
    ClientConfig(s.registrar.name, s.registrar.password, clientMspId)
  }

  /** Saving the profile and creating every MSP folder (`createMSPDirectories` swallows its errors). */
  function Setup(net: Network): (es: seq<Effect>)
    ensures forall i :: 0 <= i < |es| ==> !IsMaterialWrite(es[i]) && !IsTlsEffect(es[i]) && !es[i].CaRequest?
  {
    [SaveProfile] + MakeDirs(MspDirectories(net))
  }

  /** The organization-level TLS CA copy, made only for a secure organization. */
  function TlsCaCopy(net: Network): (es: seq<Effect>)
    ensures net.org.isSecure <==> |es| == 1
    ensures net.org.isSecure ==> es[0].CopyFile? && |es[0].target| == 6 && es[0].target[..5] == TlsCaDir(net)
  {
    if net.org.isSecure then [CopyFile(FabricCaCert(net), TlsCaDir(net) + [TlsCaFile(net.org.fullName)])] else []
  }

  /** The admin user's NodeOU file, written before the admin is registered. */
  function AdminOuFile(net: Network): (e: Effect)
    ensures e.WriteFile? && |e.path| == 8 && e.path[..7] == AdminUserMspDir(net) && !IsTlsEffect(e)
  {
    WriteFile(AdminUserMspDir(net) + ["config.yaml"], NodeOuFile(net))
  }

  /** The outcome of the registrar and organization admin part of a run. */
  datatype AdminOutcome = AdminOutcome(enrollment: Option<Enrollment>, wallet: Wallet, effects: seq<Effect>)

  /**
   * From `enrollCaAdmin` to the organization MSP: enroll the registrar (its outcome is
   * ignored), copy the TLS CA certificate when secure, write the admin's NodeOU file,
   * `addUser` the organization admin (null ends the run), then write the admin and
   * organization MSP files from its enrollment.
   */
  function AdminPhase(net: Network, s: Settings, wallet: Wallet, replies: BuildReplies): (a: AdminOutcome)
    ensures Grows(wallet, a.wallet)
    ensures a.wallet.Keys <= wallet.Keys + {s.registrar.name, net.org.adminUser}
    ensures a.enrollment.Some? <==>
      && net.org.adminUser !in wallet && net.org.adminUser != s.registrar.name
      && (s.registrar.name in wallet || replies.registrarEnroll.Ok?)
      && replies.orgAdmin.register.Ok? && replies.orgAdmin.enroll.Ok?
    ensures a.enrollment.Some? ==> a.wallet.Keys == wallet.Keys + {s.registrar.name, net.org.adminUser}
  {
    var config := RegistrarConfig(s, replies.clientMspId);
    var mspId := net.org.mspName;
    var reg := EnrollCaAdmin(wallet, config, mspId, replies.registrarEnroll);
    var user := AddUser(reg.wallet, config, AdminParams(net.org, s.maxEnrollments), mspId, None, replies.orgAdmin);
    GrowsTransitive(wallet, reg.wallet, user.wallet);
    var admin := if user.result.Some? then Some(user.result.value.enrollment) else None;
    AdminOutcome(admin, user.wallet, AdminEffects(net, reg.calls, user.calls, admin))
  }

  /**
   * The admin part creates no folder and registers no peer, does nothing TLS for an
   * organization without TLS, and enrolls the organization admin when it succeeds.
   */
  lemma AdminPhaseEffects(net: Network, s: Settings, wallet: Wallet, replies: BuildReplies)
    ensures var a := AdminPhase(net, s, wallet, replies);
      && NoMakeDir(a.effects) && NoPeerRegister(a.effects)
      && (!net.org.isSecure ==> NoTls(a.effects))
      && (a.enrollment.Some? ==> exists j :: 0 <= j < |a.effects| && IsAdminEnroll(net.org, a.effects[j]))
  {
    var config := RegistrarConfig(s, replies.clientMspId);
    var reg := EnrollCaAdmin(wallet, config, net.org.mspName, replies.registrarEnroll);
    var user := AddUser(reg.wallet, config, AdminParams(net.org, s.maxEnrollments), net.org.mspName, None, replies.orgAdmin);
    var admin := if user.result.Some? then Some(user.result.value.enrollment) else None;
    var es := AdminEffects(net, reg.calls, user.calls, admin);
    RegistrarCallsClean(wallet, config, net.org.mspName, replies.registrarEnroll);
    UserCallsClean(reg.wallet, config, AdminParams(net.org, s.maxEnrollments), net.org.mspName, None, replies.orgAdmin);
    assert AdminPhase(net, s, wallet, replies).effects == es;
  }

  /** The effects of the admin part before the admin's files, from its CA calls. */
  function AdminHead(net: Network, regCalls: seq<CaCall>, userCalls: seq<CaCall>): (es: seq<Effect>)
    ensures NoMakeDir(es)
    ensures PlainEnrolls(regCalls) && PlainEnrolls(userCalls) && !net.org.isSecure ==> NoTls(es)
    ensures NoPeerRoleRegister(regCalls) && NoPeerRoleRegister(userCalls) ==> NoPeerRegister(es)
    ensures |userCalls| >= 1 ==> |es| >= 1 && es[|es| - 1] == CaRequest(userCalls[|userCalls| - 1])
  {
    var ca1 := CaEffects(regCalls);
    var ca2 := CaEffects(userCalls);
    CaEffectsClean(regCalls);
    CaEffectsClean(userCalls);
    ConcatClean(ca1, TlsCaCopy(net));
    ConcatClean(ca1 + TlsCaCopy(net), [AdminOuFile(net)]);
    ConcatClean(ca1 + TlsCaCopy(net) + [AdminOuFile(net)], ca2);
    ca1 + TlsCaCopy(net) + [AdminOuFile(net)] + ca2
  }

  /** The effects of the admin part, from its CA calls and the admin's enrollment if any. */
  function AdminEffects(net: Network, regCalls: seq<CaCall>, userCalls: seq<CaCall>, admin: Option<Enrollment>)
    : (es: seq<Effect>)
    ensures NoMakeDir(es)
    ensures PlainEnrolls(regCalls) && PlainEnrolls(userCalls) && !net.org.isSecure ==> NoTls(es)
    ensures NoPeerRoleRegister(regCalls) && NoPeerRoleRegister(userCalls) ==> NoPeerRegister(es)
    ensures admin.Some? && |userCalls| == 2 && IsAdminEnroll(net.org, CaRequest(userCalls[1])) ==>
      exists j :: 0 <= j < |es| && IsAdminEnroll(net.org, es[j])
  {
    var head := AdminHead(net, regCalls, userCalls);
    if admin.None? then head
    else
      var material := AdminMaterial(net, admin.value);
      assert NoMakeDir(material);
      ConcatClean(head, material);
      assert |head| >= 1 ==> (head + material)[|head| - 1] == head[|head| - 1];
      head + material
  }

  /**
   * `buildCertificate`. A failed save or CA client initialization, a null organization admin
   * enrollment and any peer failure end the run with false.
   */
  function BuildCertificate(net: Network, s: Settings, wallet: Wallet, replies: BuildReplies): (r: Report)
    ensures Grows(wallet, r.wallet)
    ensures replies.save.Fail? || replies.initCa.Fail? ==>
      !r.ok && r.wallet == wallet && forall i :: 0 <= i < |r.effects| ==> !r.effects[i].CaRequest?
    ensures r.ok ==> replies.save.Ok? && replies.initCa.Ok?
    ensures r.ok ==> net.org.adminUser !in wallet && net.org.adminUser in r.wallet
    ensures r.ok ==> s.registrar.name in r.wallet
    ensures r.ok ==> forall i :: 0 <= i < |net.org.peers| ==> PeerId(net, i) !in wallet && PeerId(net, i) in r.wallet
    ensures r.wallet.Keys <= wallet.Keys + {s.registrar.name, net.org.adminUser} + PeerIdsFrom(net, 0)
  {
    if replies.save.Fail? then Report(false, wallet, [SaveProfile])
    else if replies.initCa.Fail? then Report(false, wallet, Setup(net))
    else
      var a := AdminPhase(net, s, wallet, replies);
      if a.enrollment.None? then Report(false, a.wallet, Setup(net) + a.effects)
      else
        var config := RegistrarConfig(s, replies.clientMspId);
        var peers := PeersFrom(net, s, config, net.org.mspName, a.enrollment.value, replies.peers, 0, a.wallet);
        GrowsTransitive(wallet, a.wallet, peers.wallet);
        Report(peers.ok, peers.wallet, Setup(net) + a.effects + peers.effects)
  }

  // ---- properties of the whole run ----

  lemma DirsFirstConcat(a: seq<Effect>, b: seq<Effect>)
    requires forall i :: 0 <= i < |a| ==> !IsMaterialWrite(a[i])
    requires NoMakeDir(b)
    ensures DirsFirst(a + b)
  {
    forall i, j | 0 <= i < j < |a + b| && (a + b)[j].MakeDir? ensures !IsMaterialWrite((a + b)[i]) {
      if i < |a| { assert (a + b)[i] == a[i]; }
    }
  }

  lemma AdminFirstConcat(org: Org, p: seq<Effect>, a: seq<Effect>, b: seq<Effect>)
    requires forall i :: 0 <= i < |p| ==> !p[i].CaRequest?
    requires NoPeerRegister(a)
    requires exists j :: 0 <= j < |a| && IsAdminEnroll(org, a[j])
    ensures AdminFirst(org, p + a + b)
  {
    var j :| 0 <= j < |a| && IsAdminEnroll(org, a[j]);
    var es := p + a + b;
    assert es[|p| + j] == a[j];
    forall i | 0 <= i < |p| + |a| ensures !IsPeerRegister(es[i]) {
      if i < |p| {
        assert es[i] == p[i];
      } else {
        assert es[i] == a[i - |p|];
      }
    }
  }

  /** The setup followed by effects that create no folder, as every run after its setup is. */
  lemma SetupThen(net: Network, tail: seq<Effect>)
    requires NoMakeDir(tail)
    ensures DirsFirst(Setup(net) + tail)
    ensures NoTls(tail) ==> NoTls(Setup(net) + tail)
  {
    var setup := Setup(net);
    DirsFirstConcat(setup, tail);
    if NoTls(tail) {
      assert NoTls(setup);
      ConcatClean(setup, tail);
    }
  }

  /**
   * The order of a run's effects: every folder exists before any file is written, and an
   * organization without TLS gets no TLS certificate copy, TLS enrollment or TLS file.
   */
  lemma BuildCertificateDirsFirst(net: Network, s: Settings, wallet: Wallet, replies: BuildReplies)
    ensures var r := BuildCertificate(net, s, wallet, replies);
      && DirsFirst(r.effects)
      && (!net.org.isSecure ==> NoTls(r.effects))
  {
    var r := BuildCertificate(net, s, wallet, replies);
    var setup := Setup(net);
    if replies.save.Ok? {
      if replies.initCa.Fail? {
        assert r.effects == setup + [];
        SetupThen(net, []);
      } else {
        var a := AdminPhase(net, s, wallet, replies);
        AdminPhaseEffects(net, s, wallet, replies);
        if a.enrollment.Some? {
          var peers := PeersFrom(net, s, RegistrarConfig(s, replies.clientMspId), net.org.mspName,
                                 a.enrollment.value, replies.peers, 0, a.wallet);
          ConcatClean(a.effects, peers.effects);
          assert r.effects == setup + a.effects + peers.effects;
          ConcatAssoc(setup, a.effects, peers.effects);
          SetupThen(net, a.effects + peers.effects);
        } else {
          assert r.effects == setup + a.effects;
          SetupThen(net, a.effects);
        }
      }
    }
  }

  /** Every peer registration of a run follows the organization admin's enrollment. */
  lemma BuildCertificateAdminFirst(net: Network, s: Settings, wallet: Wallet, replies: BuildReplies)
    ensures AdminFirst(net.org, BuildCertificate(net, s, wallet, replies).effects)
  {
    var r := BuildCertificate(net, s, wallet, replies);
    if replies.save.Ok? && replies.initCa.Ok? {
      var a := AdminPhase(net, s, wallet, replies);
      AdminPhaseEffects(net, s, wallet, replies);
      if a.enrollment.Some? {
        var peers := PeersFrom(net, s, RegistrarConfig(s, replies.clientMspId), net.org.mspName,
                               a.enrollment.value, replies.peers, 0, a.wallet);
        AdminFirstConcat(net.org, Setup(net), a.effects, peers.effects);
      } else {
        assert NoPeerRegister(Setup(net));
        ConcatClean(Setup(net), a.effects);
      }
    }
  }

  /** A successful run cannot be repeated on the wallet it leaves: the admin is already there. */
  lemma BuildCertificateRerunFails(net: Network, s: Settings, wallet: Wallet, first: BuildReplies,
                                   second: BuildReplies)
    ensures var r := BuildCertificate(net, s, wallet, first);
      r.ok ==> !BuildCertificate(net, s, r.wallet, second).ok
  {
  }

  /** Every collaborator answers with success. */
  ghost predicate AnswersOk(net: Network, replies: BuildReplies) {
    && replies.save.Ok? && replies.initCa.Ok? && replies.registrarEnroll.Ok?
    && CaAnswersOk(replies.orgAdmin)
    && forall i :: 0 <= i < |net.org.peers| ==> PeerAnswersOk(replies.peers(i))
  }

  /**
   * The organization admin and every peer are new to the wallet (and are not the registrar)
   * and have pairwise different IDs.
   */
  ghost predicate NewIdentities(net: Network, s: Settings, wallet: Wallet) {
    && net.org.adminUser !in wallet && net.org.adminUser != s.registrar.name
    && FreshPeersFrom(net, 0, wallet.Keys + {s.registrar.name, net.org.adminUser})
  }

  /**
   * When every collaborator answers with success, a run succeeds exactly when the identities
   * it creates are new and pairwise different.
   */
  lemma BuildCertificateSucceeds(net: Network, s: Settings, wallet: Wallet, replies: BuildReplies)
    requires AnswersOk(net, replies)
    ensures BuildCertificate(net, s, wallet, replies).ok <==> NewIdentities(net, s, wallet)
  {
    var a := AdminPhase(net, s, wallet, replies);
    if a.enrollment.Some? {
      PeersFromSucceeds(net, s, RegistrarConfig(s, replies.clientMspId), net.org.mspName,
                        a.enrollment.value, replies.peers, 0, a.wallet);
    }
  }

  // ---- where the files go ----

  /** The folder a file write or copy puts its file into. */
  function TargetFolder(e: Effect): Path
    requires IsMaterialWrite(e)
  {
    var p := if e.WriteFile? then e.path else e.target;
    if |p| == 0 then [] else p[..|p| - 1]
  }

  /** The file a write or copy produces. */
  function TargetPath(e: Effect): Path
    requires IsMaterialWrite(e)
  {
    if e.WriteFile? then e.path else e.target
  }

  /** Every file written or copied goes into a folder `createMSPDirectories` creates. */
  ghost predicate InCreatedFolders(net: Network, es: seq<Effect>) {
    forall e :: e in es && IsMaterialWrite(e) ==> TargetFolder(e) in MspDirectories(net)
  }

  /** Every file is written or copied after the folder it goes into has been created. */
  ghost predicate FolderBeforeFile(es: seq<Effect>) {
    forall j :: 0 <= j < |es| && IsMaterialWrite(es[j]) ==>
      exists i :: 0 <= i < j && es[i] == MakeDir(TargetFolder(es[j]))
  }

  /**
   * The admin user's folder, which the organization model names, is the `Admin@<fullName>`
   * folder the admin's certificates are written into.
   */
  predicate AdminFolderMatches(org: Org) {
    org.adminUserFull == "Admin@" + org.fullName
  }

  /** A file `<dir>/<name>` goes into `dir`. */
  lemma FileInFolder(dir: Path, name: string, content: string, source: Path)
    ensures TargetFolder(WriteFile(dir + [name], content)) == dir
    ensures TargetFolder(CopyFile(source, dir + [name])) == dir
  {
    assert (dir + [name])[..|dir|] == dir;
  }

  /** A file `<dir>/<sub>/<name>` goes into `<dir>/<sub>`. */
  lemma FileInSubfolder(dir: Path, sub: string, name: string, content: string, source: Path)
    ensures TargetFolder(WriteFile(dir + [sub, name], content)) == dir + [sub]
    ensures TargetFolder(CopyFile(source, dir + [sub, name])) == dir + [sub]
  {
    assert (dir + [sub, name])[..|dir| + 1] == dir + [sub];
  }

  lemma CaEffectsInCreatedFolders(net: Network, calls: seq<CaCall>)
    ensures InCreatedFolders(net, CaEffects(calls))
  {
  }

  /** The admin user MSP files go into created folders when the admin folder names agree. */
  lemma AdminFilesInCreatedFolders(net: Network, admin: Enrollment)
    requires AdminFolderMatches(net.org)
    ensures var full := net.org.fullName;
      var adminMsp := AdminCertsMspDir(net);
      && TargetFolder(WriteFile(adminMsp + ["cacerts", CertFile(full)], admin.rootCertificate)) in MspDirectories(net)
      && TargetFolder(WriteFile(adminMsp + ["keystore", "priv_sk"], admin.key.bytes)) in MspDirectories(net)
      && TargetFolder(WriteFile(adminMsp + ["signcerts", AdminCertFile(full)], admin.certificate)) in MspDirectories(net)
      && TargetFolder(CopyFile(FabricCaCert(net), adminMsp + ["tlscacerts", TlsCaFile(full)])) in MspDirectories(net)
  {
    var full := net.org.fullName;
    var adminMsp := AdminCertsMspDir(net);
    assert adminMsp == AdminUserMspDir(net);
    AdminMspLayout(net, "cacerts");
    AdminMspLayout(net, "keystore");
    AdminMspLayout(net, "signcerts");
    AdminMspLayout(net, "tlscacerts");
    FileInSubfolder(adminMsp, "cacerts", CertFile(full), admin.rootCertificate, FabricCaCert(net));
    FileInSubfolder(adminMsp, "keystore", "priv_sk", admin.key.bytes, FabricCaCert(net));
    FileInSubfolder(adminMsp, "signcerts", AdminCertFile(full), admin.certificate, FabricCaCert(net));
    FileInSubfolder(adminMsp, "tlscacerts", TlsCaFile(full), "", FabricCaCert(net));
  }

  /** The organization MSP files go into created folders. */
  lemma OrgFilesInCreatedFolders(net: Network, admin: Enrollment)
    ensures var full := net.org.fullName;
      var orgMsp := OrgMspPath(net);
      && TargetFolder(CopyFile(FabricCaCert(net), orgMsp + ["tlscacerts", TlsCaFile(full)])) in MspDirectories(net)
      && TargetFolder(WriteFile(orgMsp + ["cacerts", CertFile(full)], admin.rootCertificate)) in MspDirectories(net)
      && TargetFolder(WriteFile(orgMsp + ["admincerts", AdminCertFile(full)], admin.certificate)) in MspDirectories(net)
      && TargetFolder(WriteFile(orgMsp + ["config.yaml"], NodeOuFile(net))) in MspDirectories(net)
  {
    var full := net.org.fullName;
    var orgMsp := OrgMspPath(net);
    BaseFoldersCreated(net);
    OrgMspLayout(net, "tlscacerts");
    OrgMspLayout(net, "cacerts");
    OrgMspLayout(net, "admincerts");
    FileInSubfolder(orgMsp, "tlscacerts", TlsCaFile(full), "", FabricCaCert(net));
    FileInSubfolder(orgMsp, "cacerts", CertFile(full), admin.rootCertificate, FabricCaCert(net));
    FileInSubfolder(orgMsp, "admincerts", AdminCertFile(full), admin.certificate, FabricCaCert(net));
    FileInFolder(orgMsp, "config.yaml", NodeOuFile(net), FabricCaCert(net));
  }

  /** The admin and organization MSP files go into created folders when the admin folder names agree. */
  lemma AdminMaterialInCreatedFolders(net: Network, admin: Enrollment)
    requires AdminFolderMatches(net.org)
    ensures InCreatedFolders(net, AdminMaterial(net, admin))
  {
    var full := net.org.fullName;
    var adminMsp := AdminCertsMspDir(net);
    var orgMsp := OrgMspPath(net);
    var adminFiles := [
      WriteFile(adminMsp + ["cacerts", CertFile(full)], admin.rootCertificate),
      WriteFile(adminMsp + ["keystore", "priv_sk"], admin.key.bytes),
      WriteFile(adminMsp + ["signcerts", AdminCertFile(full)], admin.certificate)];
    var copies := if net.org.isSecure then
        [ CopyFile(FabricCaCert(net), adminMsp + ["tlscacerts", TlsCaFile(full)]),
          CopyFile(FabricCaCert(net), orgMsp + ["tlscacerts", TlsCaFile(full)])]
      else [];
    var orgFiles := [
      WriteFile(orgMsp + ["cacerts", CertFile(full)], admin.rootCertificate),
      WriteFile(orgMsp + ["admincerts", AdminCertFile(full)], admin.certificate),
      WriteFile(orgMsp + ["config.yaml"], NodeOuFile(net))];
    assert AdminMaterial(net, admin) == adminFiles + copies + orgFiles;
    AdminFilesInCreatedFolders(net, admin);
    OrgFilesInCreatedFolders(net, admin);
    assert InCreatedFolders(net, adminFiles);
    assert InCreatedFolders(net, copies);
    assert InCreatedFolders(net, orgFiles);
  }

  /** The admin part's files (TLS CA copy, admin NodeOU file, MSP files) go into created folders. */
  lemma AdminEffectsInCreatedFolders(net: Network, regCalls: seq<CaCall>, userCalls: seq<CaCall>,
                                     admin: Option<Enrollment>)
    requires AdminFolderMatches(net.org)
    ensures InCreatedFolders(net, AdminEffects(net, regCalls, userCalls, admin))
  {
    BaseFoldersCreated(net);
    FileInFolder(TlsCaDir(net), TlsCaFile(net.org.fullName), "", FabricCaCert(net));
    FileInFolder(AdminUserMspDir(net), "config.yaml", NodeOuFile(net), FabricCaCert(net));
    CaEffectsInCreatedFolders(net, regCalls);
    CaEffectsInCreatedFolders(net, userCalls);
    assert InCreatedFolders(net, AdminHead(net, regCalls, userCalls));
    if admin.Some? {
      AdminMaterialInCreatedFolders(net, admin.value);
    }
  }

  lemma AdminPhaseInCreatedFolders(net: Network, s: Settings, wallet: Wallet, replies: BuildReplies)
    requires AdminFolderMatches(net.org)
    ensures InCreatedFolders(net, AdminPhase(net, s, wallet, replies).effects)
  {
    var config := RegistrarConfig(s, replies.clientMspId);
    var reg := EnrollCaAdmin(wallet, config, net.org.mspName, replies.registrarEnroll);
    var user := AddUser(reg.wallet, config, AdminParams(net.org, s.maxEnrollments), net.org.mspName, None, replies.orgAdmin);
    var admin := if user.result.Some? then Some(user.result.value.enrollment) else None;
    AdminEffectsInCreatedFolders(net, reg.calls, user.calls, admin);
    assert AdminPhase(net, s, wallet, replies).effects == AdminEffects(net, reg.calls, user.calls, admin);
  }

  /** A peer's MSP files go into its created `msp` sub-folders. */
  lemma PeerMspMaterialInCreatedFolders(net: Network, peer: Peer, admin: Enrollment, certificate: string,
                                        keyPem: string)
    requires peer in net.org.peers
    ensures InCreatedFolders(net, PeerMspMaterial(net, peer, admin, certificate, keyPem))
  {
    var full := net.org.fullName;
    var msp := PeerMspPath(net, peer);
    PeerLayout(net, peer, "admincerts");
    PeerLayout(net, peer, "cacerts");
    PeerLayout(net, peer, "keystore");
    PeerLayout(net, peer, "signcerts");
    FileInSubfolder(msp, "admincerts", AdminCertFile(full), admin.certificate, []);
    FileInSubfolder(msp, "cacerts", CertFile(full), admin.rootCertificate, []);
    FileInSubfolder(msp, "keystore", "priv_sk", keyPem, []);
    FileInSubfolder(msp, "signcerts", PeerFullName(net.org, peer) + "-cert.pem", certificate, []);
  }

  /** A peer's NodeOU file and MSP files go into its created `msp` folders. */
  lemma PeerHeadInCreatedFolders(net: Network, s: Settings, config: ClientConfig, mspId: string,
                                 admin: Enrollment, peer: Peer, pr: PeerReplies, wallet: Wallet)
    requires peer in net.org.peers
    ensures InCreatedFolders(net, PeerHead(net, s, config, mspId, admin, peer, pr, wallet))
  {
    var user := AddUser(wallet, config, PeerParams(net.org, peer, s.maxEnrollments), mspId,
                        CsrRequestOf(pr.hostCsr), pr.user);
    PeerLayout(net, peer, "");
    FileInFolder(PeerMspPath(net, peer), "config.yaml", NodeOuFile(net), []);
    CaEffectsInCreatedFolders(net, user.calls);
    if user.result.Some? {
      var enr := user.result.value.enrollment;
      PeerMspMaterialInCreatedFolders(net, peer, admin, enr.certificate, enr.key.bytes);
    }
  }

  /** A peer's TLS files go into its created `tls` folder. */
  lemma PeerTlsMaterialInCreatedFolders(net: Network, peer: Peer, tls: Enrollment, keyPem: string)
    requires peer in net.org.peers
    ensures InCreatedFolders(net, PeerTlsMaterial(net, peer, tls, keyPem))
  {
    var dir := PeerTlsPath(net, peer);
    PeerLayout(net, peer, "");
    FileInFolder(dir, "ca.crt", tls.rootCertificate, []);
    FileInFolder(dir, "server.crt", tls.certificate, []);
    FileInFolder(dir, "server.key", keyPem, []);
  }

  /** A peer's TLS CA copy goes into its `msp/tlscacerts` folder and its TLS files into its `tls` folder. */
  lemma PeerTlsPhaseInCreatedFolders(net: Network, config: ClientConfig, peer: Peer, pr: PeerReplies,
                                     wallet: Wallet, secret: string)
    requires peer in net.org.peers
    requires PeerFullName(net.org, peer) in wallet && config.adminName in wallet
    ensures InCreatedFolders(net, PeerTlsPhase(net, config, peer, pr, wallet, secret).effects)
  {
    var r := PeerTlsPhase(net, config, peer, pr, wallet, secret);
    var copy := [CopyFile(FabricCaCert(net), PeerMspPath(net, peer) + ["tlscacerts", TlsCaFile(net.org.fullName)])];
    PeerLayout(net, peer, "tlscacerts");
    FileInSubfolder(PeerMspPath(net, peer), "tlscacerts", TlsCaFile(net.org.fullName), "", FabricCaCert(net));
    assert InCreatedFolders(net, copy);
    if secret != "" {
      var tls := EnrollTls(wallet, TlsRequest(net.org, peer, secret), CsrRequestOf(pr.hostCsr), config.adminName, pr.tls);
      var calls := CaEffects(tls.calls);
      CaEffectsInCreatedFolders(net, tls.calls);
      if tls.result.Some? {
        var t := tls.result.value;
        var tlsKey := t.key.bytes;
        PeerTlsMaterialInCreatedFolders(net, peer, t, tlsKey);
        assert r.effects == copy + calls + PeerTlsMaterial(net, peer, t, tlsKey);
      } else {
        assert r.effects == copy + calls;
      }
    } else {
      assert r.effects == copy;
    }
  }

  lemma PeerStepInCreatedFolders(net: Network, s: Settings, config: ClientConfig, mspId: string,
                                 admin: Enrollment, peer: Peer, pr: PeerReplies, wallet: Wallet)
    requires peer in net.org.peers
    ensures InCreatedFolders(net, PeerStep(net, s, config, mspId, admin, peer, pr, wallet).effects)
  {
    var r := PeerStep(net, s, config, mspId, admin, peer, pr, wallet);
    var h := PeerHead(net, s, config, mspId, admin, peer, pr, wallet);
    PeerHeadInCreatedFolders(net, s, config, mspId, admin, peer, pr, wallet);
    var user := AddUser(wallet, config, PeerParams(net.org, peer, s.maxEnrollments), mspId,
                        CsrRequestOf(pr.hostCsr), pr.user);
    if user.result.Some? && net.org.isSecure {
      var tls := PeerTlsPhase(net, config, peer, pr, user.wallet, user.result.value.secret);
      PeerTlsPhaseInCreatedFolders(net, config, peer, pr, user.wallet, user.result.value.secret);
      assert r.effects == h + tls.effects;
    } else {
      assert r.effects == h;
    }
  }

  lemma {:induction false} PeersFromInCreatedFolders(net: Network, s: Settings, config: ClientConfig,
                                                      mspId: string, admin: Enrollment,
                                                      answers: nat -> PeerReplies, k: nat, wallet: Wallet)
    ensures InCreatedFolders(net, PeersFrom(net, s, config, mspId, admin, answers, k, wallet).effects)
    decreases |net.org.peers| - k
  {
    if k < |net.org.peers| {
      var step := PeerStep(net, s, config, mspId, admin, net.org.peers[k], answers(k), wallet);
      PeerStepInCreatedFolders(net, s, config, mspId, admin, net.org.peers[k], answers(k), wallet);
      var r := PeersFrom(net, s, config, mspId, admin, answers, k, wallet);
      if step.ok {
        var rest := PeersFrom(net, s, config, mspId, admin, answers, k + 1, step.wallet);
        PeersFromInCreatedFolders(net, s, config, mspId, admin, answers, k + 1, step.wallet);
        assert r.effects == step.effects + rest.effects;
      } else {
        assert r.effects == step.effects;
      }
    }
  }

  /** After the setup, a file going into a created folder finds that folder already made. */
  lemma SetupFoldersFirst(net: Network, tail: seq<Effect>)
    requires InCreatedFolders(net, tail)
    ensures FolderBeforeFile(Setup(net) + tail)
  {
    var setup := Setup(net);
    var dirs := MspDirectories(net);
    var es := setup + tail;
    forall j | 0 <= j < |es| && IsMaterialWrite(es[j])
      ensures exists i :: 0 <= i < j && es[i] == MakeDir(TargetFolder(es[j]))
    {
      assert j >= |setup|;
      assert es[j] == tail[j - |setup|];
      assert es[j] in tail;
      var m :| 0 <= m < |dirs| && dirs[m] == TargetFolder(es[j]);
      assert setup[1 + m] == MakeDirs(dirs)[m];
      assert es[1 + m] == setup[1 + m];
    }
  }

  /**
   * When the admin user's folder is the `Admin@<fullName>` folder, every file a run writes or
   * copies goes into a folder `createMSPDirectories` created earlier in the run.
   */
  lemma BuildCertificateFoldersBeforeFiles(net: Network, s: Settings, wallet: Wallet, replies: BuildReplies)
    requires AdminFolderMatches(net.org)
    ensures var r := BuildCertificate(net, s, wallet, replies);
      InCreatedFolders(net, r.effects) && FolderBeforeFile(r.effects)
  {
    var r := BuildCertificate(net, s, wallet, replies);
    var setup := Setup(net);
    if replies.save.Fail? {
      assert r.effects == [SaveProfile];
    } else if replies.initCa.Fail? {
      assert r.effects == setup + [];
      SetupFoldersFirst(net, []);
    } else {
      var a := AdminPhase(net, s, wallet, replies);
      AdminPhaseInCreatedFolders(net, s, wallet, replies);
      assert forall e :: e in setup ==> !IsMaterialWrite(e);
      if a.enrollment.Some? {
        var peers := PeersFrom(net, s, RegistrarConfig(s, replies.clientMspId), net.org.mspName,
                               a.enrollment.value, replies.peers, 0, a.wallet);
        PeersFromInCreatedFolders(net, s, RegistrarConfig(s, replies.clientMspId), net.org.mspName,
                                  a.enrollment.value, replies.peers, 0, a.wallet);
        ConcatAssoc(setup, a.effects, peers.effects);
        SetupFoldersFirst(net, a.effects + peers.effects);
      } else {
        SetupFoldersFirst(net, a.effects);
      }
    }
  }

  // ---- organization MSP before peers ----

  /** Whether `e` writes or copies a file somewhere below the folder `dir`. */
  predicate WritesUnder(e: Effect, dir: Path) {
    IsMaterialWrite(e) && |dir| < |TargetPath(e)| && TargetPath(e)[..|dir|] == dir
  }

  /**
   * The folder directly below the organization's folder that a file goes into
   * (`msp`, `peers`, `tlsca` or `users`), or "" for a shorter path.
   */
  function OrgArea(e: Effect): string
    requires IsMaterialWrite(e)
  {
    if |TargetPath(e)| > 4 then TargetPath(e)[4] else ""
  }

  /** No file of `es` goes into the `peers` folder. */
  ghost predicate NoPeerFiles(es: seq<Effect>) {
    forall e :: e in es && IsMaterialWrite(e) ==> OrgArea(e) != "peers"
  }

  /** Every file of `es` goes into the `peers` folder. */
  ghost predicate OnlyPeerFiles(es: seq<Effect>) {
    forall e :: e in es && IsMaterialWrite(e) ==> OrgArea(e) == "peers"
  }

  /**
   * Every file written below the organization MSP comes before every peer registration and
   * every file written below the `peers` folder.
   */
  ghost predicate OrgMspBeforePeers(net: Network, es: seq<Effect>) {
    forall i, j ::
      (0 <= i < |es| && 0 <= j < |es| && WritesUnder(es[i], OrgMspPath(net))
       && (IsPeerRegister(es[j]) || WritesUnder(es[j], PeersBase(net)))) ==> i < j
  }

  lemma WritesUnderArea(net: Network, e: Effect)
    ensures WritesUnder(e, OrgMspPath(net)) ==> OrgArea(e) == "msp"
    ensures WritesUnder(e, PeersBase(net)) ==> OrgArea(e) == "peers"
  {
    if WritesUnder(e, OrgMspPath(net)) {
      assert TargetPath(e)[4] == TargetPath(e)[..5][4] == OrgMspPath(net)[4];
    }
    if WritesUnder(e, PeersBase(net)) {
      assert TargetPath(e)[4] == TargetPath(e)[..5][4] == PeersBase(net)[4];
    }
  }

  lemma AdminMaterialNoPeerFiles(net: Network, admin: Enrollment)
    ensures NoPeerFiles(AdminMaterial(net, admin))
  {
  }

  lemma AdminHeadNoPeerFiles(net: Network, regCalls: seq<CaCall>, userCalls: seq<CaCall>)
    ensures NoPeerFiles(AdminHead(net, regCalls, userCalls))
  {
    var ca1 := CaEffects(regCalls);
    var ca2 := CaEffects(userCalls);
    assert NoPeerFiles(ca1) && NoPeerFiles(ca2);
    assert NoPeerFiles(TlsCaCopy(net));
    assert NoPeerFiles([AdminOuFile(net)]);
    assert AdminHead(net, regCalls, userCalls) == ca1 + TlsCaCopy(net) + [AdminOuFile(net)] + ca2;
  }

  /** The admin part writes its files into `tlsca`, `users` and `msp`, never into `peers`. */
  lemma AdminPhaseNoPeerFiles(net: Network, s: Settings, wallet: Wallet, replies: BuildReplies)
    ensures NoPeerFiles(AdminPhase(net, s, wallet, replies).effects)
  {
    var config := RegistrarConfig(s, replies.clientMspId);
    var reg := EnrollCaAdmin(wallet, config, net.org.mspName, replies.registrarEnroll);
    var user := AddUser(reg.wallet, config, AdminParams(net.org, s.maxEnrollments), net.org.mspName, None, replies.orgAdmin);
    var admin := if user.result.Some? then Some(user.result.value.enrollment) else None;
    assert AdminPhase(net, s, wallet, replies).effects == AdminEffects(net, reg.calls, user.calls, admin);
    var head := AdminHead(net, reg.calls, user.calls);
    AdminHeadNoPeerFiles(net, reg.calls, user.calls);
    if admin.Some? {
      AdminMaterialNoPeerFiles(net, admin.value);
      assert AdminEffects(net, reg.calls, user.calls, admin) == head + AdminMaterial(net, admin.value);
    } else {
      assert AdminEffects(net, reg.calls, user.calls, admin) == head;
    }
  }

  lemma PeerHeadOnlyPeerFiles(net: Network, s: Settings, config: ClientConfig, mspId: string,
                              admin: Enrollment, peer: Peer, pr: PeerReplies, wallet: Wallet)
    ensures OnlyPeerFiles(PeerHead(net, s, config, mspId, admin, peer, pr, wallet))
  {
  }

  lemma PeerTlsPhaseOnlyPeerFiles(net: Network, config: ClientConfig, peer: Peer, pr: PeerReplies,
                                  wallet: Wallet, secret: string)
    requires PeerFullName(net.org, peer) in wallet && config.adminName in wallet
    ensures OnlyPeerFiles(PeerTlsPhase(net, config, peer, pr, wallet, secret).effects)
  {
    var r := PeerTlsPhase(net, config, peer, pr, wallet, secret);
    var copy := [CopyFile(FabricCaCert(net), PeerMspPath(net, peer) + ["tlscacerts", TlsCaFile(net.org.fullName)])];
    if secret != "" {
      var tls := EnrollTls(wallet, TlsRequest(net.org, peer, secret), CsrRequestOf(pr.hostCsr), config.adminName, pr.tls);
      var calls := CaEffects(tls.calls);
      if tls.result.Some? {
        var t := tls.result.value;
        var tlsKey := t.key.bytes;
        assert r.effects == copy + calls + PeerTlsMaterial(net, peer, t, tlsKey);
      } else {
        assert r.effects == copy + calls;
      }
    } else {
      assert r.effects == copy;
    }
  }

  lemma PeerStepOnlyPeerFiles(net: Network, s: Settings, config: ClientConfig, mspId: string,
                              admin: Enrollment, peer: Peer, pr: PeerReplies, wallet: Wallet)
    ensures OnlyPeerFiles(PeerStep(net, s, config, mspId, admin, peer, pr, wallet).effects)
  {
    var r := PeerStep(net, s, config, mspId, admin, peer, pr, wallet);
    var h := PeerHead(net, s, config, mspId, admin, peer, pr, wallet);
    PeerHeadOnlyPeerFiles(net, s, config, mspId, admin, peer, pr, wallet);
    var user := AddUser(wallet, config, PeerParams(net.org, peer, s.maxEnrollments), mspId,
                        CsrRequestOf(pr.hostCsr), pr.user);
    if user.result.Some? && net.org.isSecure {
      var tls := PeerTlsPhase(net, config, peer, pr, user.wallet, user.result.value.secret);
      PeerTlsPhaseOnlyPeerFiles(net, config, peer, pr, user.wallet, user.result.value.secret);
      assert r.effects == h + tls.effects;
    } else {
      assert r.effects == h;
    }
  }

  lemma {:induction false} PeersFromOnlyPeerFiles(net: Network, s: Settings, config: ClientConfig,
                                                   mspId: string, admin: Enrollment,
                                                   answers: nat -> PeerReplies, k: nat, wallet: Wallet)
    ensures OnlyPeerFiles(PeersFrom(net, s, config, mspId, admin, answers, k, wallet).effects)
    decreases |net.org.peers| - k
  {
    if k < |net.org.peers| {
      var step := PeerStep(net, s, config, mspId, admin, net.org.peers[k], answers(k), wallet);
      PeerStepOnlyPeerFiles(net, s, config, mspId, admin, net.org.peers[k], answers(k), wallet);
      var r := PeersFrom(net, s, config, mspId, admin, answers, k, wallet);
      if step.ok {
        var rest := PeersFrom(net, s, config, mspId, admin, answers, k + 1, step.wallet);
        PeersFromOnlyPeerFiles(net, s, config, mspId, admin, answers, k + 1, step.wallet);
        assert r.effects == step.effects + rest.effects;
      } else {
        assert r.effects == step.effects;
      }
    }
  }

  /**
   * Setup, then an admin part with no peer registration and no file in `peers`, then a peer
   * part with files only in `peers`: the organization MSP files come before the peers.
   */
  lemma OrgMspBeforePeersConcat(net: Network, a: seq<Effect>, p: seq<Effect>)
    requires NoPeerRegister(a) && NoPeerFiles(a) && OnlyPeerFiles(p)
    ensures OrgMspBeforePeers(net, Setup(net) + a + p)
  {
    var setup := Setup(net);
    var es := setup + a + p;
    assert forall e :: e in setup ==> !IsMaterialWrite(e) && !IsPeerRegister(e);
    assert forall k :: 0 <= k < |setup| ==> es[k] == setup[k];
    assert forall k :: |setup| <= k < |setup| + |a| ==> es[k] == a[k - |setup|];
    assert forall k :: |setup| + |a| <= k < |es| ==> es[k] == p[k - |setup| - |a|];
    forall i, j | 0 <= i < |es| && 0 <= j < |es| && WritesUnder(es[i], OrgMspPath(net))
        && (IsPeerRegister(es[j]) || WritesUnder(es[j], PeersBase(net)))
      ensures i < j
    {
      WritesUnderArea(net, es[i]);
      WritesUnderArea(net, es[j]);
    }
  }

  /**
   * In a run, every file written below the organization MSP (its CA certificate, admin
   * certificate, NodeOU file and TLS CA copy) comes before every peer registration and every
   * file written below the `peers` folder.
   */
  lemma BuildCertificateOrgMspFirst(net: Network, s: Settings, wallet: Wallet, replies: BuildReplies)
    ensures OrgMspBeforePeers(net, BuildCertificate(net, s, wallet, replies).effects)
  {
    var r := BuildCertificate(net, s, wallet, replies);
    var setup := Setup(net);
    if replies.save.Fail? {
      assert r.effects == setup[..1];
      assert forall i :: 0 <= i < |r.effects| ==> !IsMaterialWrite(r.effects[i]);
    } else if replies.initCa.Fail? {
      assert r.effects == setup + [] + [];
      OrgMspBeforePeersConcat(net, [], []);
    } else {
      var a := AdminPhase(net, s, wallet, replies);
      AdminPhaseEffects(net, s, wallet, replies);
      AdminPhaseNoPeerFiles(net, s, wallet, replies);
      if a.enrollment.Some? {
        var peers := PeersFrom(net, s, RegistrarConfig(s, replies.clientMspId), net.org.mspName,
                               a.enrollment.value, replies.peers, 0, a.wallet);
        PeersFromOnlyPeerFiles(net, s, RegistrarConfig(s, replies.clientMspId), net.org.mspName,
                               a.enrollment.value, replies.peers, 0, a.wallet);
        OrgMspBeforePeersConcat(net, a.effects, peers.effects);
      } else {
        assert r.effects == setup + a.effects + [];
        OrgMspBeforePeersConcat(net, a.effects, []);
      }
    }
  }
}
