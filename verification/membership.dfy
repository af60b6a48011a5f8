/**
 * Identity enrollment against the organization's certificate authority, with the wallet
 * (the identity store) passed in and returned explicitly. The CA's answers and the local key
 * generator's are inputs, so every operation is a function of (wallet, answers).
 */
module Membership {
  import opened Wrappers

  /** An opaque private key, as the crypto suite returns it. */
  datatype PrivateKey = PrivateKey(bytes: string)

  /** A CA enrollment: the key, the signed certificate and the CA's root certificate. */
  datatype Enrollment = Enrollment(key: PrivateKey, certificate: string, rootCertificate: string)

  /** A wallet entry. `mspId` is absent when the client had no MSP id to give. */
  datatype Identity = Identity(mspId: Option<string>, key: PrivateKey, certificate: string)

  /** The wallet: identities by enrollment ID. */
  type Wallet = map<string, Identity>

  /** The caller's CSR request: the host name to put in the SAN extension. */
  datatype CsrRequest = CsrRequest(san: string)

  /** The content of a locally generated CSR; its ASN.1/PEM encoding is opaque. */
  datatype Csr = Csr(
    subject: string,
    subjectAltNames: seq<string>,
    signatureAlgorithm: string,
    subjectKey: PrivateKey)

  datatype CsrKey = CsrKey(csr: Csr, key: PrivateKey)

  datatype EnrollRequest = EnrollRequest(
    enrollmentID: string,
    enrollmentSecret: string,
    profile: Option<string>,
    csr: Option<Csr>)

  datatype RegisterRequest = RegisterRequest(
    enrollmentID: string,
    enrollmentSecret: string,
    role: string,
    maxEnrollments: int,
    affiliation: string)

  /** A request sent to the CA; `Register` is authenticated as the `registrar` identity. */
  datatype CaCall =
    | Register(registration: RegisterRequest, registrar: string)
    | Enroll(enrollment: EnrollRequest)

  /** The registrar account and the MSP id the fabric client reports (`getMspid()`). */
  datatype ClientConfig = ClientConfig(adminName: string, adminSecret: string, mspId: Option<string>)

  /**
   * The answers one operation can receive: from `register` (the one-time secret), from the
   * crypto suite's key generation, and from `enroll`.
   */
  datatype CaReplies = CaReplies(register: Reply<string>, keyGen: Reply<PrivateKey>, enroll: Reply<Enrollment>)

  /** The result of an operation (`None` for the source's `null`), the new wallet, the CA calls. */
  datatype Step<T> = Step(result: Option<T>, wallet: Wallet, calls: seq<CaCall>)

  /** `addUser`'s result: the enrollment and the secret `register` returned. */
  datatype EnrollSecret = EnrollSecret(enrollment: Enrollment, secret: string)

  /** No identity is removed or overwritten. */
  ghost predicate Grows(w: Wallet, w': Wallet) {
    forall id :: id in w ==> id in w' && w'[id] == w[id]
  }

  lemma GrowsTransitive(w1: Wallet, w2: Wallet, w3: Wallet)
    requires Grows(w1, w2) && Grows(w2, w3)
    ensures Grows(w1, w3)
  {
  }

  /** The subject `CN=<id>` a CSR is built with. */
  function CommonNameSubject(enrollmentID: string): string {
    "CN=" + enrollmentID
  }

  /** The common name read back from a subject, if it has the `CN=` form. */
  function SubjectCommonName(subject: string): Option<string> {
    if |subject| >= 3 && subject[..3] == "CN=" then Some(subject[3..]) else None
  }

  /**
   * `generateCsr`: a fresh key from the crypto suite and a CSR for it, with subject
   * `CN=<enrollmentID>`, SAN list exactly `[san, "localhost"]` and SHA256withECDSA; a key
   * generation failure is raised.
   */
  function GenerateCsr(enrollmentID: string, san: string, keyGen: Reply<PrivateKey>): (r: Reply<CsrKey>)
    ensures r.Ok? <==> keyGen.Ok?
    ensures r.Ok? ==> r.value.key == keyGen.value && r.value.csr.subjectKey == keyGen.value
    ensures r.Ok? ==> SubjectCommonName(r.value.csr.subject) == Some(enrollmentID)
    ensures r.Ok? ==> r.value.csr.subjectAltNames == [san, "localhost"]
  {
    match keyGen
    case Fail(reason) => Fail("Failed to generate key for enrollment due to error [" + reason + "]")
    case Ok(key) =>
      var subject := CommonNameSubject(enrollmentID);
      assert subject[..3] == "CN=" && subject[3..] == enrollmentID;
      Ok(CsrKey(Csr(subject, [san, "localhost"], "SHA256withECDSA", key), key))
  }

  /** The request `enrollCaAdmin` sends: the registrar's name and secret. */
  function RegistrarEnrollRequest(config: ClientConfig): EnrollRequest {
    EnrollRequest(config.adminName, config.adminSecret, None, None)
  }

  /**
   * `enrollCaAdmin`: if the registrar is already in the wallet, return null without calling
   * the CA. Otherwise enroll it with its secret; on success store (MSP id, key, certificate)
   * under the registrar name and return the enrollment; any failure yields null.
   */
  function EnrollCaAdmin(wallet: Wallet, config: ClientConfig, orgMspId: string, enroll: Reply<Enrollment>)
    : (s: Step<Enrollment>)
    ensures config.adminName in wallet ==> s == Step(None, wallet, [])
    ensures config.adminName !in wallet ==> s.calls == [Enroll(RegistrarEnrollRequest(config))]
    ensures s.result.Some? <==> config.adminName !in wallet && enroll.Ok?
    ensures s.result.Some? ==>
      && s.result.value == enroll.value
      && s.wallet == wallet[config.adminName := Identity(
           Some(config.mspId.GetOr(orgMspId)), enroll.value.key, enroll.value.certificate)]
    ensures s.result.None? ==> s.wallet == wallet
    ensures Grows(wallet, s.wallet)
  {
    if config.adminName in wallet then Step(None, wallet, [])
    else
      var call := Enroll(RegistrarEnrollRequest(config));
      match enroll
      case Fail(_) => Step(None, wallet, [call])
      case Ok(e) =>
        var mspId := Some(config.mspId.GetOr(orgMspId));
        Step(Some(e), wallet[config.adminName := Identity(mspId, e.key, e.certificate)], [call])
  }

  /** The CSR to enroll with: none without a request, a fresh one (or the error) with one. */
  function OptionalCsr(enrollmentID: string, csrObj: Option<CsrRequest>, keyGen: Reply<PrivateKey>)
    : (r: Reply<Option<CsrKey>>)
    ensures csrObj.None? ==> r == Ok(None)
    ensures csrObj.Some? ==> (r.Ok? <==> keyGen.Ok?)
    ensures csrObj.Some? && r.Ok? ==>
      r.value.Some? && r.value.value == GenerateCsr(enrollmentID, csrObj.value.san, keyGen).value
  {
    if csrObj.None? then Ok(None)
    else
      match GenerateCsr(enrollmentID, csrObj.value.san, keyGen)
      case Ok(ck) => Ok(Some(ck))
      case Fail(reason) => Fail(reason)
  }

  /** The key the caller keeps: the locally generated one when a CSR was used, else the CA's. */
  function KeptEnrollment(e: Enrollment, csr: Option<CsrKey>): (r: Enrollment)
    ensures r.certificate == e.certificate && r.rootCertificate == e.rootCertificate
    ensures r.key == (if csr.Some? then csr.value.key else e.key)
  {
    if csr.Some? then e.(key := csr.value.key) else e
  }

  function CsrOf(csr: Option<CsrKey>): Option<Csr> {
    if csr.Some? then Some(csr.value.csr) else None
  }

  /**
   * `enrollTls`: null, without contacting the CA, unless both the target identity and the
   * admin identity are in the wallet. With a CSR request, the enroll request carries a locally
   * built CSR and the returned enrollment carries the local key. The wallet is never written.
   */
  function EnrollTls(wallet: Wallet, request: EnrollRequest, csrObj: Option<CsrRequest>, adminId: string,
                     replies: CaReplies): (s: Step<Enrollment>)
    ensures s.wallet == wallet
    ensures request.enrollmentID !in wallet || adminId !in wallet ==> s.result.None? && s.calls == []
    ensures |s.calls| <= 1
    ensures request.enrollmentID in wallet && adminId in wallet && (csrObj.Some? ==> replies.keyGen.Ok?)
      ==> |s.calls| == 1
    ensures forall i :: 0 <= i < |s.calls| ==>
      s.calls[i].Enroll? && s.calls[i].enrollment.(csr := None) == request.(csr := None)
    ensures |s.calls| == 1 && csrObj.Some? ==>
      replies.keyGen.Ok?
      && s.calls[0].enrollment.csr == Some(GenerateCsr(request.enrollmentID, csrObj.value.san, replies.keyGen).value.csr)
    ensures |s.calls| == 1 && csrObj.None? ==> s.calls[0].enrollment.csr == request.csr
    ensures s.result.Some? <==>
      && request.enrollmentID in wallet && adminId in wallet
      && (csrObj.Some? ==> replies.keyGen.Ok?)
      && replies.enroll.Ok?
    ensures s.result.Some? ==>
      && s.result.value.certificate == replies.enroll.value.certificate
      && s.result.value.rootCertificate == replies.enroll.value.rootCertificate
    ensures s.result.Some? && csrObj.Some? ==> s.result.value.key == replies.keyGen.value
    ensures s.result.Some? && csrObj.None? ==> s.result.value.key == replies.enroll.value.key
  {
    if request.enrollmentID !in wallet || adminId !in wallet then Step(None, wallet, [])
    else
      match OptionalCsr(request.enrollmentID, csrObj, replies.keyGen)
      case Fail(_) => Step(None, wallet, [])
      case Ok(csr) =>
        var call := Enroll(if csr.Some? then request.(csr := CsrOf(csr)) else request);
        match replies.enroll
        case Fail(_) => Step(None, wallet, [call])
        case Ok(e) => Step(Some(KeptEnrollment(e, csr)), wallet, [call])
  }

  /**
   * `addUser`: null, with no CA call and the wallet unchanged, if the user is already in the
   * wallet or the registrar is not. Otherwise register the user as the registrar, enroll it
   * with exactly the secret `register` returned (and a local CSR when requested), store it
   * under the client's MSP id (the `mspId` argument is unused) and return the enrollment with
   * that secret. Any failure yields null and leaves the wallet unchanged.
   */
  function AddUser(wallet: Wallet, config: ClientConfig, params: RegisterRequest, mspId: string,
                   csrObj: Option<CsrRequest>, replies: CaReplies): (s: Step<EnrollSecret>)
    ensures params.enrollmentID in wallet ==> s == Step(None, wallet, [])
    ensures config.adminName !in wallet ==> s == Step(None, wallet, [])
    ensures params.enrollmentID !in wallet && config.adminName in wallet ==>
      |s.calls| >= 1 && s.calls[0] == Register(params, config.adminName)
    ensures |s.calls| <= 2
    ensures |s.calls| == 2 ==>
      s.calls[1].Enroll? && s.calls[1].enrollment.enrollmentID == params.enrollmentID
      && s.calls[1].enrollment.profile == None
    ensures |s.calls| == 2 && csrObj.Some? ==>
      replies.keyGen.Ok?
      && s.calls[1].enrollment.csr == Some(GenerateCsr(params.enrollmentID, csrObj.value.san, replies.keyGen).value.csr)
    ensures |s.calls| == 2 && csrObj.None? ==> s.calls[1].enrollment.csr == None
    ensures s.result.Some? <==>
      && params.enrollmentID !in wallet && config.adminName in wallet
      && replies.register.Ok?
      && (csrObj.Some? ==> replies.keyGen.Ok?)
      && replies.enroll.Ok?
    ensures s.result.Some? ==>
      var secret := replies.register.value;
      var e := s.result.value.enrollment;
      && s.result.value.secret == secret
      && |s.calls| == 2
      && s.calls[1].Enroll?
      && s.calls[1].enrollment.enrollmentID == params.enrollmentID
      && s.calls[1].enrollment.enrollmentSecret == secret
      && s.calls[1].enrollment.profile == None
      && e.certificate == replies.enroll.value.certificate
      && e.key == (if csrObj.Some? then replies.keyGen.value else replies.enroll.value.key)
      && s.wallet == wallet[params.enrollmentID := Identity(config.mspId, e.key, e.certificate)]
    ensures s.result.None? ==> s.wallet == wallet
    ensures Grows(wallet, s.wallet)
  {
    if params.enrollmentID in wallet || config.adminName !in wallet then Step(None, wallet, [])
    else
      var reg := Register(params, config.adminName);
      match replies.register
      case Fail(_) => Step(None, wallet, [reg])
      case Ok(secret) =>
        match OptionalCsr(params.enrollmentID, csrObj, replies.keyGen)
        case Fail(_) => Step(None, wallet, [reg])
        case Ok(csr) =>
          var enr := Enroll(EnrollRequest(params.enrollmentID, secret, None, CsrOf(csr)));
          match replies.enroll
          case Fail(_) => Step(None, wallet, [reg, enr])
          case Ok(e) =>
            var kept := KeptEnrollment(e, csr);
            Step(Some(EnrollSecret(kept, secret)),
                 wallet[params.enrollmentID := Identity(config.mspId, kept.key, kept.certificate)],
                 [reg, enr])
  }

  /**
   * `enrollCaAdmin` is idempotent: once it has enrolled the registrar, a second call returns
   * null, makes no CA call and leaves the wallet as the first call left it.
   */
  lemma EnrollCaAdminIdempotent(wallet: Wallet, config: ClientConfig, orgMspId: string,
                                first: Reply<Enrollment>, second: Reply<Enrollment>)
    requires EnrollCaAdmin(wallet, config, orgMspId, first).result.Some?
    ensures var w := EnrollCaAdmin(wallet, config, orgMspId, first).wallet;
      EnrollCaAdmin(w, config, orgMspId, second) == Step(None, w, [])
  {
  }

  /** A user `addUser` has stored is rejected by a second `addUser`, without any CA call. */
  lemma AddUserRejectsRepeat(wallet: Wallet, config: ClientConfig, params: RegisterRequest,
                             mspId: string, csrObj: Option<CsrRequest>, first: CaReplies,
                             mspId': string, csrObj': Option<CsrRequest>, second: CaReplies)
    requires AddUser(wallet, config, params, mspId, csrObj, first).result.Some?
    ensures var w := AddUser(wallet, config, params, mspId, csrObj, first).wallet;
      AddUser(w, config, params, mspId', csrObj', second) == Step(None, w, [])
  {
  }

  /**
   * A user `addUser` has stored, with the registrar present, passes both wallet checks of
   * `enrollTls`: the TLS enrollment reaches the CA with the secret `addUser` returned.
   */
  lemma AddUserEnablesTls(wallet: Wallet, config: ClientConfig, params: RegisterRequest,
                          mspId: string, csrObj: Option<CsrRequest>, replies: CaReplies,
                          tlsReplies: CaReplies)
    requires AddUser(wallet, config, params, mspId, csrObj, replies).result.Some?
    ensures
      var s := AddUser(wallet, config, params, mspId, csrObj, replies);
      var request := EnrollRequest(params.enrollmentID, s.result.value.secret, Some("tls"), None);
      var t := EnrollTls(s.wallet, request, None, config.adminName, tlsReplies);
      t.calls == [Enroll(request)] && (t.result.Some? <==> tlsReplies.enroll.Ok?)
  {
  }
}
