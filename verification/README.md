# bnc-hlf core, modelled in Dafny

bnc-hlf is a command-line tool that stands up a Hyperledger Fabric network for one organization:
it writes docker-compose files for the organization's certificate authority (CA) and its orderers.
It starts and stops those containers through a docker engine and builds the organization's MSP
material by registering and enrolling identities against the Fabric CA. It also writes a
connection profile and creates and joins channels through the Fabric SDK.

This project models five parts of that tool as pure Dafny functions and states their
properties as contracts and lemmas:

- **Membership** (`membership.dfy`). This is the Fabric CA client over a wallet.
  - `enrollCaAdmin` enrolls the registrar.
  - `addUser` registers and then enrolls a user.
  - `enrollTls` enrolls a TLS profile.
  - `generateCsr` builds a CSR.
  - The wallet is a map from identity name to identity. Each CA answer (register, key
    generation, enroll) is an input of type `Reply`. Each operation returns its result, the
    new wallet and the CA calls it made, in order.
- **Organization certificates** (`org_certs.dfy`, with the folder layout in `msp_layout.dfy` and
  the NodeOU descriptor in `node_ou.dfy`).
  - `buildCertificate` is modelled as a trace of effects: folder creations, file writes, file
    copies and CA requests.
  - Every collaborator answer is an input.
  - The result is the boolean the source returns, together with the final wallet.
- **Channels** (`channel.dfy`).
  - `createChannel` is a status check on the orderer's answer.
  - `joinChannel` is a fold over the peers' join results. The model keeps the final
    `!error_message` test as written.
- **Container lifecycle**.
  - `ca_compose.dfy` holds the current CA generator.
  - `rca_compose.dfy` holds the older root-CA generator.
  - `orderer_compose.dfy` holds the orderer generator.
  - The start and stop decisions return the success flag, the set of running containers and the
    docker calls made.
- **Descriptors**. The CA compose file, the orderer compose file and the connection profile
  (`connection_profile.dfy`) are structured records. They are not YAML text. Each
  `createTemplate*` returns true exactly when saving the descriptor succeeds (`compose.dfy`).

Shared modules:

- `wrappers.dfy` holds `Option` and `Reply`.
- `text.dfy` holds decimal rendering and parsing and boolean rendering.
- `topology.dfy` holds the network, organization, peer, orderer and CA options.
- `docker.dfy` holds the docker calls.

## Model

Source paths below are relative to the repository root.

| member | source | states |
|---|---|---|
| Membership.GenerateCsr | src/core/hlf/membership.ts:229-265 | A CSR exists exactly when key generation succeeds. Its key is the generated key, its subject reads back as `CN=<enrollmentID>`, and its SAN list is exactly `[san, "localhost"]`. |
| Membership.EnrollCaAdmin | src/core/hlf/membership.ts:71-99 | If the registrar is already in the wallet, the result is null with no CA call and the wallet unchanged. Otherwise one enroll call is made with the registrar's name and secret. The result is non-null exactly when that enroll succeeds. Success stores the registrar under the client MSP id, or under `orgMspId` when the client has none. Failure leaves the wallet unchanged. |
| Membership.EnrollTls | src/core/hlf/membership.ts:108-146 | The wallet is never written. If the target or the admin is missing, the result is null and the CA is not called. At most one enroll call is made, and it carries the request. With a CSR request, that call carries the CSR built locally for the generated key, and the generated key replaces the returned key; without one, it carries the request's own CSR. The result is non-null exactly when both identities exist, key generation succeeds when a CSR is asked for, and the enroll succeeds. |
| Membership.AddUser | src/core/hlf/membership.ts:154-204 | If the user already exists or the registrar is missing, the result is null with no CA call. Otherwise a register call is made as the registrar, then an enroll with exactly the secret `register` returned. That enroll carries the CSR built locally for the generated key when a CSR is requested, and no CSR otherwise. The result is non-null exactly when every answer succeeds. On success the user is stored and the secret is returned. Failure leaves the wallet unchanged. |
| Membership.EnrollCaAdminIdempotent | src/core/hlf/membership.ts:74-79 | After a successful registrar enrollment, a second call returns null, makes no CA call and keeps the wallet. |
| Membership.AddUserRejectsRepeat | src/core/hlf/membership.ts:157-161 | A user that `addUser` stored is rejected by any later `addUser`, with no CA call. |
| Membership.AddUserEnablesTls | src/core/hlf/membership.ts:108-132 | After `addUser` succeeds, `enrollTls` with the returned secret passes both wallet checks and sends exactly one enroll request. |
| MspLayout.PeerLayout | src/generators/crypto/createOrgCerts.ts:204-251 | The folder list `createMSPDirectories` creates contains each peer's `msp` folder, its `tls` folder and every MSP sub-folder. |
| MspLayout.OrgMspLayout | src/generators/crypto/createOrgCerts.ts:204-251 | An organization MSP sub-folder is created if and only if it is one of the MSP folder names. |
| MspLayout.AdminMspLayout | src/generators/crypto/createOrgCerts.ts:204-251 | An admin MSP sub-folder is created if and only if it is one of the admin MSP folder names. |
| MspLayout.AllPeerFoldersUnderPeers | src/generators/crypto/createOrgCerts.ts:215-240 | Every folder made for a peer lies under the organization's `peers` folder. |
| MspLayout.BaseFoldersCreated | src/generators/crypto/createOrgCerts.ts:204-251 | The TLS CA folder, the organization `msp` folder and the admin user's `msp` folder are among the folders created. |
| MspLayout.AdminCertsFolderCreated | src/generators/crypto/createOrgCerts.ts:132-138 | A sub-folder of `users/Admin@<fullName>/msp`, where the admin's files go, is created if and only if the admin user's folder is `Admin@<fullName>` and the sub-folder is an admin MSP folder name. |
| NodeOu.ConfigFor | src/generators/crypto/createOrgCerts.ts:257-282 | The NodeOU config is enabled. All four OU identifiers point at the same root CA certificate and use the `client`, `peer`, `admin` and `orderer` OUs. |
| NodeOu.ParseRender | src/generators/crypto/createOrgCerts.ts:257-282 | The written NodeOU lines parse back to the config they were rendered from. |
| NodeOu.WrittenConfigBindsRootCa | src/generators/crypto/createOrgCerts.ts:257-282 | The rendered config lines read back as the config. Two organizations with different full names get different line lists. |
| NodeOu.WrittenFileBindsRootCa | src/generators/crypto/createOrgCerts.ts:257-277 | The file text the template writes has a leading line break and a trailing indented line. Read back line by line with blank lines skipped, it gives the organization's config with every role bound to its root CA certificate. Two organizations with different full names get different file texts. Both hold when the full names contain no newline. |
| NodeOu.SplitFileContent | src/generators/crypto/createOrgCerts.ts:258-273 | The written text splits at line breaks into an empty line, the 14 descriptor lines and the 8-space last line. |
| Text.SplitJoin | src/generators/crypto/createOrgCerts.ts:257-282 | Splitting lines joined by a separator that none of them contains gives the lines back. |
| Text.SplitJoinThen | src/generators/crypto/createOrgCerts.ts:258-273 | Splitting a join followed by one more part, where no part contains the separator, gives every part back. |
| Text.NonBlankConcat | src/generators/crypto/createOrgCerts.ts:258-273 | Skipping blank lines distributes over concatenation. |
| OrgCerts.PeerTlsPhase | src/generators/crypto/createOrgCerts.ts:167-189 | The TLS part of a secure peer leaves the wallet alone, creates no folder and registers no peer. An empty secret means "already enrolled": the part's only effect is the TLS CA copy, and it succeeds. Otherwise its second effect is the TLS enrollment with the peer's ID, that secret and profile `tls`. The part succeeds exactly when the secret is empty or the TLS enrollment succeeds. |
| OrgCerts.PeerStep | src/generators/crypto/createOrgCerts.ts:149-190 | One peer iteration succeeds exactly when `addUser` succeeds for the peer and, for a secure organization with a non-empty secret, the TLS enrollment succeeds. The wallet only grows, and only by the peer's ID. |
| OrgCerts.PeerStepEffects | src/generators/crypto/createOrgCerts.ts:149-190 | A peer iteration creates no folder and, when the organization is not secure, does nothing TLS. Its only peer registration is its second effect, made as the registrar, when the peer is new. |
| OrgCerts.PeerStepStoresKey | src/generators/crypto/createOrgCerts.ts:154-163 | The peer's `keystore/priv_sk` and `signcerts` files hold the key and the certificate the wallet stores for the peer, so they form one key pair (the corrected key file, see Findings). |
| OrgCerts.PeerStepCsrForStoredKey | src/generators/crypto/createOrgCerts.ts:154-156 | With a host CSR, the peer's enrollment sent to the CA carries a CSR for the key the wallet stores. Because the host CSR has no `san`, that CSR's SAN list is the text `undefined`, then `localhost`. |
| OrgCerts.PeerTlsPhaseStoresKey | src/generators/crypto/createOrgCerts.ts:167-180 | When the TLS enrollment succeeds, `server.crt` is the returned certificate and `server.key` holds the key it was issued for (the corrected key file, see Findings). With a host CSR, that is the key of the CSR sent to the CA, whose SAN list is the text `undefined`, then `localhost`. |
| OrgCerts.AsWrittenKeyPemMismatch | src/generators/crypto/createOrgCerts.ts:152-158 | As written, a peer with a host CSR gets the host CSR's key in `priv_sk`. But `addUser` sends the CA a CSR for a key it generated itself and stores that key in the wallet. So whenever the two keys differ, the key file does not match the certificate. |
| OrgCerts.PeerStepEmptySecretSkipsTls | src/generators/crypto/createOrgCerts.ts:167-186 | An empty registration secret on a secure peer means no TLS enrollment. The TLS CA copy is the iteration's last effect, and the run goes on. |
| OrgCerts.UserCallsClean | src/core/hlf/membership.ts:177-190 | Every enrollment `addUser` makes is plain, with no TLS profile. After its first call it registers nothing with the peer role. When the requested role is not peer, it registers nothing with the peer role at all. |
| OrgCerts.PeersFrom | src/generators/crypto/createOrgCerts.ts:149-191 | The peer loop only adds the loop's peer IDs to the wallet, never creates a folder, and does nothing TLS for an organization that is not secure. On success the peers were new and pairwise distinct, and are now in the wallet. |
| OrgCerts.PeersFromSucceeds | src/generators/crypto/createOrgCerts.ts:149-191 | When every CA exchange answers and the registrar is present, the loop succeeds if and only if the remaining peers are new, pairwise distinct identities. |
| OrgCerts.Setup | src/generators/crypto/createOrgCerts.ts:91-92 | Saving the profile and creating the folders writes no material, does nothing TLS and makes no CA request. |
| OrgCerts.TlsCaCopy | src/generators/crypto/createOrgCerts.ts:113-120 | The organization TLS CA certificate is copied, once, exactly when the organization is secure. The copy goes into the `tlsca` folder. |
| OrgCerts.AdminPhase | src/generators/crypto/createOrgCerts.ts:108-145 | The admin enrollment is non-null exactly when all of these hold: the admin user is new and differs from the registrar, the registrar is present or enrolls, and the admin's register and enroll succeed. The wallet then gains exactly the registrar and the admin. |
| OrgCerts.AdminPhaseEffects | src/generators/crypto/createOrgCerts.ts:108-145 | The admin part creates no folder, registers no peer, does nothing TLS when the organization is not secure, and enrolls the admin when it succeeds. |
| OrgCerts.AdminEffects | src/generators/crypto/createOrgCerts.ts:123-145 | The admin part's effects create no folder. They are free of TLS and peer registrations when its CA calls are. When the admin enrolled, the admin's enrollment is among them. |
| OrgCerts.BuildCertificate | src/generators/crypto/createOrgCerts.ts:88-199 | The wallet only grows. A failed save or CA client initialization gives false with no CA request and no wallet change. True means the admin was new and is now stored, the registrar is stored, and every peer was new and is now stored. No identity outside those is added. |
| OrgCerts.BuildCertificateDirsFirst | src/generators/crypto/createOrgCerts.ts:88-199 | Every folder is created before any file is written or copied. An organization that is not secure gets no TLS copy, TLS enrollment or TLS file. |
| OrgCerts.BuildCertificateFoldersBeforeFiles | src/generators/crypto/createOrgCerts.ts:88-199 | When the admin user's folder is `Admin@<fullName>`, every file written or copied goes into a folder `createMSPDirectories` created, and that folder was created earlier in the run. |
| OrgCerts.AdminMaterialInCreatedFolders | src/generators/crypto/createOrgCerts.ts:130-145 | When the admin user's folder is `Admin@<fullName>`, the admin MSP files, the TLS CA copies and the organization MSP files go into created folders. |
| OrgCerts.PeerStepInCreatedFolders | src/generators/crypto/createOrgCerts.ts:149-190 | A peer's NodeOU file, MSP files, TLS CA copy and TLS files go into that peer's created `msp` and `tls` folders. |
| OrgCerts.BuildCertificateAdminFirst | src/generators/crypto/createOrgCerts.ts:123-156 | Every peer registration comes after the organization admin's enrollment. |
| OrgCerts.BuildCertificateOrgMspFirst | src/generators/crypto/createOrgCerts.ts:130-191 | Every file a run writes or copies below the organization `msp` folder comes before every peer registration and every file below the `peers` folder. These files are the CA certificate, the admin certificate, the NodeOU file and the TLS CA copy. |
| OrgCerts.AdminPhaseNoPeerFiles | src/generators/crypto/createOrgCerts.ts:108-145 | The admin part writes no file below the `peers` folder. |
| OrgCerts.PeersFromOnlyPeerFiles | src/generators/crypto/createOrgCerts.ts:149-191 | The peer loop writes files only below the `peers` folder. |
| OrgCerts.BuildCertificateRerunFails | src/generators/crypto/createOrgCerts.ts:88-199 | A second run on the wallet a successful run left returns false, because the admin already exists. |
| OrgCerts.BuildCertificateSucceeds | src/generators/crypto/createOrgCerts.ts:88-199 | When every collaborator answers with success, the run returns true if and only if the admin is new and is not the registrar, and the peers are new, pairwise distinct identities, distinct from the admin and the registrar. |
| Channel.CreateChannel | src/core/hlf/channel.ts:14-53 | A request is sent exactly when the client, the config extraction and the signing succeed. It carries the config, exactly one signature and the channel name. The result is true exactly when a response with status `SUCCESS` comes back. |
| Channel.JoinChannel | src/core/hlf/channel.ts:56-135 | The client is always requested first. The genesis block is fetched exactly when the client exists and the profile defines the channel; otherwise nothing else is called. An undefined channel records the not-defined error. The join request goes to the given peers with the fetched block. The result is true exactly when no message, or an empty one, was recorded. |
| Channel.ClassifyIsLastFailure | src/core/hlf/channel.ts:98-111 | The loop over the peer results records no message exactly when every peer answered status 200. Otherwise the message is that of the last peer that did not join. |
| Channel.JoinChannelAllJoined | src/core/hlf/channel.ts:56-135 | When the client, the channel, the genesis block and the join request all come through, `joinChannel` is true if and only if every peer answered status 200. |
| Channel.JoinChannelEmptyReasonIsSuccess | src/core/hlf/channel.ts:112-128 | A client lookup rejected with an empty text makes `joinChannel` return true without contacting the orderer. |
| Channel.FailureMessage | src/core/hlf/channel.ts:102-110 | Both per-peer failure messages start with `Failed to join peer to the channel`. |
| CaCompose.CaService | src/generators/docker-compose/dockerComposeCa.yaml.ts:40-57 | The CA service is keyed and named by the CA name. It publishes the CA port on both sides, joins the compose network, and lists the one binding `<root>/organizations/fabric-ca/<org>:/tmp/hyperledger/fabric-ca`. The template writes that key as `volumes:;` (see Findings), so as written the binding is not mounted. |
| CaCompose.CaComposeFile | src/generators/docker-compose/dockerComposeCa.yaml.ts:33-58 | The file declares the external compose network and exactly one service, the CA. |
| CaCompose.TlsEnabledMirrorsIsSecure | src/generators/docker-compose/dockerComposeCa.yaml.ts:48 | `FABRIC_CA_SERVER_TLS_ENABLED` is present and parses back to the organization's `isSecure`. |
| CaCompose.PortBindingReadsBack | src/generators/docker-compose/dockerComposeCa.yaml.ts:52-53 | The port binding renders as `<port>:<port>`, and both halves parse back to the CA port. |
| CaCompose.StartOrgCa | src/generators/docker-compose/dockerComposeCa.yaml.ts:91-122 | A failing first existence check gives false with no further call. A running CA gives true after one existence check. Otherwise the CA is composed, then comes a delay and a re-check, a longer delay only if it is still absent, and the ownership change of the network root. A failing compose, re-check or ownership change gives false and stops there. The result is true exactly when the first check answers and either the CA runs or compose, re-check and ownership change all succeed. |
| CaCompose.StopOrgCa | src/generators/docker-compose/dockerComposeCa.yaml.ts:127-140 | A failing existence check gives false with nothing stopped. An absent CA gives true with nothing stopped. Otherwise the CA is force-stopped, and the result is what the engine answered, false when the stop fails. The CA is removed from the running set exactly on success. |
| CaCompose.StartTlsCa | src/generators/docker-compose/dockerComposeCa.yaml.ts:78-85 | Composes the CA service and, when that succeeds, changes the ownership of `<root>/<org.name>`. Errors are swallowed. |
| CaCompose.StartTlsCaServiceDeclared | src/generators/docker-compose/dockerComposeCa.yaml.ts:40-85 | The service `startTlsCa` composes is the one the generator's compose file declares. |
| CaCompose.StartOrgCaIdempotent | src/generators/docker-compose/dockerComposeCa.yaml.ts:93-97 | A start whose check answers and whose compose succeeds leaves the CA running. Once the CA is running, another start composes nothing, makes only the existence check and changes nothing. It is true exactly when that check answers. |
| CaCompose.StopOrgCaIdempotent | src/generators/docker-compose/dockerComposeCa.yaml.ts:129-133 | After a successful stop, another stop makes only the existence check and changes nothing. It is true exactly when that check answers. |
| CaCompose.StartThenStop | src/generators/docker-compose/dockerComposeCa.yaml.ts:91-140 | After a successful start, the stop succeeds exactly when its check answers and the engine stops the CA. Then the running set is the original one without the CA. |
| CaCompose.ReadRenderVolumes | src/generators/docker-compose/dockerComposeCa.yaml.ts:54-55 | With the key written `volumes:`, the block reads back as the one binding `<root>/organizations/fabric-ca/<org>:/tmp/hyperledger/fabric-ca`. |
| CaCompose.AsWrittenVolumesUnreadable | src/generators/docker-compose/dockerComposeCa.yaml.ts:54 | With the key written `volumes:;`, as in the template, the block has no `volumes` key, and the binding is lost. |
| RcaCompose.RcaService | src/generators/crypto/dockerComposeCa.yaml.ts:18-35 | The root CA service is keyed and named `rca.<org>` and publishes 7054 on both sides, whatever the CA options say. |
| RcaCompose.RcaTlsAlwaysEnabled | src/generators/crypto/dockerComposeCa.yaml.ts:26 | The root CA has TLS enabled even for an organization that is not secure. |
| RcaCompose.RcaNameInjective | src/generators/crypto/dockerComposeCa.yaml.ts:19-20 | Different organizations get different root CA service names. |
| RcaCompose.ChangeOwnerShipWithPassword | src/generators/crypto/dockerComposeCa.yaml.ts:102-115 | The ownership change resolves exactly when the shell exit code is 0. |
| RcaCompose.ChangeOwnershipPrompt | src/generators/crypto/dockerComposeCa.yaml.ts:79-100 | The prompting ownership change is rejected exactly when `sudo` reports an error, with that error. Output on stderr does not reject it. |
| RcaCompose.StartOrgCa | src/generators/crypto/dockerComposeCa.yaml.ts:58-77 | A failing first existence check gives false with no further call. A running root CA gives true after one existence check. Otherwise it is composed and the network root's ownership is changed, with no wait and no re-check. The result is true exactly when the check answers and either the root CA runs or compose succeeds and the exit code is 0. |
| RcaCompose.StartTlsCa | src/generators/crypto/dockerComposeCa.yaml.ts:45-52 | Composes `ca.<org>.tls` and, when that succeeds, changes the ownership of `<root>/<org>` through the prompting helper. It always returns normally. The error it logs is the compose failure's, else the `sudo` error of the ownership change, else none. |
| RcaCompose.StartTlsCaServiceUndeclared | src/generators/crypto/dockerComposeCa.yaml.ts:18-47 | The service `startTlsCa` composes is not declared in the generator's own compose file. |
| RcaCompose.StartOrgCaIdempotent | src/generators/crypto/dockerComposeCa.yaml.ts:60-64 | A start whose check answers and whose compose succeeds leaves the root CA running. Once it is running, another start composes nothing, makes only the existence check and changes nothing. It is true exactly when that check answers. |
| OrdererCompose.OrdererService | src/generators/docker-compose/dockercomposeorderer.yaml.ts:48-74 | Each orderer service is keyed and named by `ordererName`, extends `orderer-base` from the base file, joins the compose network and carries the shared extra hosts. |
| OrdererCompose.OrdererServicePorts | src/generators/docker-compose/dockercomposeorderer.yaml.ts:53-54 | The listen port variable and the published port are the orderer's first port. With no port, the binding renders `undefined:undefined`. |
| OrdererCompose.ExtraHostsOrder | src/generators/docker-compose/dockercomposeorderer.yaml.ts:56-65 | The extra hosts are the `bnc_test` host, then one per peer extra host (`<peer>.<fullName>`), then one per orderer extra host (`ordererName`), in that order. |
| OrdererCompose.OrdererComposeFileShape | src/generators/docker-compose/dockercomposeorderer.yaml.ts:34-76 | The file holds one named volume `<orderer>.<domain>` and one service per orderer, in orderer order. |
| OrdererCompose.CreateTemplateOrderers | src/generators/docker-compose/dockercomposeorderer.yaml.ts:90-99 | The result is true exactly when saving succeeds, and then the saved descriptor is the orderer compose file. |
| OrdererCompose.StartOrderer | src/generators/docker-compose/dockercomposeorderer.yaml.ts:105-125 | Starting an orderer first creates the network on the orderer's engine, then composes `<orderer>.<domain>` only if that succeeded. The result is true exactly when both succeed. |
| OrdererCompose.StartedServiceDeclared | src/generators/docker-compose/dockercomposeorderer.yaml.ts:48-55 | The service `startOrderer` composes, `<orderer>.<domain>`, is declared in the orderer compose file exactly when `ordererName` gives some listed orderer that name. In particular it is declared when `ordererName` of the orderer is that name. |
| OrdererCompose.StartOrderers | src/generators/docker-compose/dockercomposeorderer.yaml.ts:130-141 | Every orderer is started once, in order, whatever the earlier ones returned, and the result is always true. |
| OrdererCompose.StartOrderersComposeInOrder | src/generators/docker-compose/dockercomposeorderer.yaml.ts:130-141 | The services composed are, in orderer order, exactly those of the orderers whose network creation succeeded. |
| ConnectionProfile.ProfileOf | src/generators/connectionprofile.yaml.ts:26-91 | The profile has one channel, keyed by the channel name (`undefined` when none was given), one organization keyed by its name with its MSP id, and one CA. |
| ConnectionProfile.PeerEndpoints | src/generators/connectionprofile.yaml.ts:72-80 | Each peer endpoint is `<peer>.<fullName>`, with its URL on the peer's first port, the SSL name override equal to its name and request timeout 120001. |
| ConnectionProfile.OrdererEndpoints | src/generators/connectionprofile.yaml.ts:63-70 | Each orderer endpoint is `<orderer>.<fullName>`, with its URL on the orderer's first port and the SSL name override equal to its name. |
| ConnectionProfile.ProfileListsEveryPeer | src/generators/connectionprofile.yaml.ts:42-80 | Every peer appears in the channel with all four role flags true, in the organization's peer list and among the peer endpoints. |
| ConnectionProfile.ProfileListsEveryOrderer | src/generators/connectionprofile.yaml.ts:37-70 | Every orderer appears in the channel's orderer list and among the orderer endpoints. |
| ConnectionProfile.EndpointUrlReadsBack | src/generators/connectionprofile.yaml.ts:63-80 | An endpoint URL parses back to `grpcs` exactly when the organization is secure, and to the node's port. |
| ConnectionProfile.CaEntryIgnoresIsSecure | src/generators/connectionprofile.yaml.ts:82-90 | The CA entry is the same whether or not the organization is secure: plain `http://localhost:`, with the CA options' user and password as registrar. |
| ConnectionProfile.CreateTemplateConnectionProfile | src/generators/connectionprofile.yaml.ts:107-116 | The result is true exactly when saving succeeds, and then the saved descriptor is the profile. |

## Left out

- The helpers that compute folder paths (`getPeerMspPath`, `getPeerTlsPath`, `getOrganizationMspPath` and the rest in `src/utils`) are not part of this model. Paths are segment lists built from the documented layout `organizations/peerOrganizations/<fullName>/...`.
- `CertificateCsr.generateCsrHost` is not part of this model. Its CSR and key are an input per peer (`HostCsr`). The host CSR object has no `san` field (src/utils/data-type.ts:36-39), so the SAN host `addUser` and `enrollTls` pass to `generateCsr` is always the text `undefined` (`OrgCerts.UndefinedSan`).
- Docker, the file system, `sudo`/shell, timers, the Fabric CA server, the Fabric SDK client and the orderer/peers are not modelled. Each of their answers is an input. Delays are recorded as `Wait` calls and are not timed.
- Only `organizations[0]` is modelled, as the source only reads that one. Multi-organization networks are out of scope.
- `getEngine`, `Orchestrator._getDockerEngine`, `ordererName` and `engineHost` are not part of this model. The engine is the engine name recorded on each docker call. The two naming helpers are total functions in a `Resolver` record.
- `createMSPDirectories` and `generateConfigOUFile` swallow their own errors and return a boolean that `buildCertificate` ignores. The model always performs their effects.
- `createFile` and `copyFile` are assumed to succeed. A failure of theirs would end the run with false through the outer catch, and that path is not modelled.
- `initCaClient`: only its success or failure is modelled (`BuildReplies.initCa`). The TLS options it reads are not.
- The registrar enrollment's outcome is ignored by `buildCertificate`, as in the source. Only its effect on the wallet and its CA call are kept.
- Log output (`d`, `l`, `e`) is not modelled, except the error `startTlsCa` of the older generator catches, which is its only outcome.
- Channel.JoinChannel: the 10-second timer promise and the event-hub shutdown are left out because they never affect the result. A thrown value's text is taken as already rendered by `toString()`. The `== 200` test is modelled on integer statuses only, so a status given as the string `"200"` is not modelled.
- Channel.CreateChannel: the envelope file read, `extractChannelConfig` and `signChannelConfig` are one answer each. Any of them throwing gives false.
- CaCompose.StartOrgCa: `changeOwnerShipWithPassword` of the current generator lives in `src/utils`, which is not part of this model. It is an input answer.
- CaCompose.StartOrgCa: the model records the CA as running as soon as compose succeeds, even when the re-check after the delay does not see it (`visibleAfterDelay` false) or fails. The source takes no further decision on it either. CaCompose.StartOrgCaIdempotent relies on this.
- OrgCerts.BuildCertificateFoldersBeforeFiles: it assumes the admin user's folder name `adminUserFull`, which the organization model computes, is `Admin@<fullName>`. That model is not part of this one. With any other name the admin's files go into `users/Admin@<fullName>/msp/...`, which `createMSPDirectories` does not create (MspLayout.AdminCertsFolderCreated). The promise is only about folders this run created. Whether `createFile` creates a missing folder itself is not part of this model.
- NodeOu.WrittenFileBindsRootCa: it assumes the organization's full name contains no newline. Otherwise the certificate line of the file would split in two.
- The compose files and the connection profile are modelled as structured records, not YAML text. Only these pieces are rendered as text:
  - the NodeOU file (`NodeOu.Render`, `NodeOu.FileContent`);
  - port values and port bindings (`PortValue.Render`, `PortMap.Render`);
  - volume bindings (`VolumeBinding.Render`) and the CA file's `volumes` block, for the finding below;
  - extra hosts (`ExtraHost.Render`);
  - endpoint URLs (`ConnectionProfile.EndpointUrl`);
  - paths (`MspLayout.RenderPath`).
- The CA `port` and the node ports are natural numbers. Ports the source might hold as strings are not modelled.
- The wallet's storage back end (`src/models/wallet.ts`) is a finite map from identity name to identity.

## Findings

| source | as written | input that shows it | evidently intended | confidence | as-written member | corrected member |
|---|---|---|---|---|---|---|
| src/generators/docker-compose/dockerComposeCa.yaml.ts:54 | The CA service's volume key is written `volumes:;`. In YAML that is the key `volumes:;` (or a parse error), not `volumes`, so the bind mount of `<root>/organizations/fabric-ca/<org>` is not attached to the service. | Any network: the rendered block `    volumes:;` followed by `      - <root>/organizations/fabric-ca/<org>:/tmp/hyperledger/fabric-ca` | The key `volumes:`, as in the older generator (src/generators/crypto/dockerComposeCa.yaml.ts:32), so that the block reads back as the one binding. | not executed | CaCompose.AsWrittenVolumesUnreadable | CaCompose.ReadRenderVolumes |
| src/generators/crypto/createOrgCerts.ts:158 | With a host CSR, `priv_sk` (and likewise `server.key`, line 174) receives the host CSR's key. But `addUser` and `enrollTls` ignore the host CSR's own request. They generate a fresh key, send the CA a CSR for that key, and store that key in the wallet (src/core/hlf/membership.ts:182-193, 127-136). | Any peer whose host CSR key differs from the freshly generated key: `priv_sk` holds the host key, while `signcerts` holds a certificate for the generated key. | The key file holds the key the certificate was issued for, which is the key stored in the wallet. | not executed; the host CSR helper is not part of this model | OrgCerts.AsWrittenKeyPemMismatch | OrgCerts.PeerStepStoresKey |
