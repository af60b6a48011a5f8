/**
 * The connection profile (`ConnectionProfileGenerator`) as a structured record built from the
 * organization and the default channel name, and its saving.
 */
module ConnectionProfile {
  import opened Wrappers
  import opened Text
  import opened Topology
  import opened Compose

  /** A peer's entry under the channel, with its four role flags. */
  datatype ChannelPeer = ChannelPeer(
    name: string, endorsingPeer: bool, chaincodeQuery: bool, ledgerQuery: bool, eventSource: bool)

  datatype ChannelEntry = ChannelEntry(key: string, orderers: seq<string>, peers: seq<ChannelPeer>)

  datatype OrgEntry = OrgEntry(key: string, mspid: string, peers: seq<string>, certificateAuthorities: seq<string>)

  /** An orderer or peer endpoint; only peers carry a request timeout. */
  datatype Endpoint = Endpoint(name: string, url: string, sslTargetNameOverride: string, requestTimeout: Option<nat>)

  datatype CaEntry = CaEntry(key: string, url: string, verify: bool, enrollId: string, enrollSecret: string, caName: string)

  datatype Profile = Profile(
    name: string,
    xType: string,
    description: string,
    version: string,
    channels: seq<ChannelEntry>,
    organizations: seq<OrgEntry>,
    orderers: seq<Endpoint>,
    peers: seq<Endpoint>,
    certificateAuthorities: seq<CaEntry>)

  const PeerRequestTimeout: nat := 120001

  /** The channel key: the channel name, or `undefined` when the generator was given none. */
  function ChannelKey(channelName: Option<string>): string {
    if channelName.Some? then channelName.value else "undefined"
  }

  const SecurePrefix := "grpcs://localhost:"
  const PlainPrefix := "grpc://localhost:"

  /** `grpc[s]://localhost:<ports[0]>`, with the `s` exactly when the organization is secure. */
  function EndpointUrl(isSecure: bool, port: PortValue): string {
    (if isSecure then SecurePrefix else PlainPrefix) + port.Render()
  }

  function PeerNames(org: Org, peers: seq<Peer>): (ns: seq<string>)
    ensures |ns| == |peers|
    ensures forall i :: 0 <= i < |peers| ==> ns[i] == PeerFullName(org, peers[i])
  {
    if |peers| == 0 then [] else [PeerFullName(org, peers[0])] + PeerNames(org, peers[1..])
  }

  function OrdererNames(org: Org, orderers: seq<Orderer>): (ns: seq<string>)
    ensures |ns| == |orderers|
    ensures forall i :: 0 <= i < |orderers| ==> ns[i] == OrdererFullName(org, orderers[i])
  {
    if |orderers| == 0 then [] else [OrdererFullName(org, orderers[0])] + OrdererNames(org, orderers[1..])
  }

  function ChannelPeers(org: Org, peers: seq<Peer>): (cs: seq<ChannelPeer>)
    ensures |cs| == |peers|
    ensures forall i :: 0 <= i < |peers| ==> cs[i].name == PeerFullName(org, peers[i])
    ensures forall i :: 0 <= i < |peers| ==>
      cs[i].endorsingPeer && cs[i].chaincodeQuery && cs[i].ledgerQuery && cs[i].eventSource
  {
    if |peers| == 0 then []
    else [ChannelPeer(PeerFullName(org, peers[0]), true, true, true, true)] + ChannelPeers(org, peers[1..])
  }

  function OrdererEndpoints(org: Org, orderers: seq<Orderer>): (es: seq<Endpoint>)
    ensures |es| == |orderers|
    ensures forall i :: 0 <= i < |orderers| ==>
      && es[i].name == OrdererFullName(org, orderers[i])
      && es[i].sslTargetNameOverride == es[i].name
      && es[i].url == EndpointUrl(org.isSecure, FirstPort(orderers[i].options))
      && es[i].requestTimeout == None
  {
    if |orderers| == 0 then []
    else
      var n := OrdererFullName(org, orderers[0]);
      [Endpoint(n, EndpointUrl(org.isSecure, FirstPort(orderers[0].options)), n, None)]
        + OrdererEndpoints(org, orderers[1..])
  }

  function PeerEndpoints(org: Org, peers: seq<Peer>): (es: seq<Endpoint>)
    ensures |es| == |peers|
    ensures forall i :: 0 <= i < |peers| ==>
      && es[i].name == PeerFullName(org, peers[i])
      && es[i].sslTargetNameOverride == es[i].name
      && es[i].url == EndpointUrl(org.isSecure, FirstPort(peers[i].options))
      && es[i].requestTimeout == Some(PeerRequestTimeout)
  {
    if |peers| == 0 then []
    else
      var n := PeerFullName(org, peers[0]);
      [Endpoint(n, EndpointUrl(org.isSecure, FirstPort(peers[0].options)), n, Some(PeerRequestTimeout))]
        + PeerEndpoints(org, peers[1..])
  }

  /** The CA entry: plain `http` whatever `isSecure`, the CA options' user as registrar. */
  function CaEntryOf(org: Org): CaEntry {
    CaEntry(org.caName, "http://localhost:" + NatToString(org.ca.options.port), false,
            org.ca.options.user, org.ca.options.password, org.caName)
  }

  /** The profile of organization `org` with default channel `channelName`. */
  function ProfileOf(org: Org, channelName: Option<string>): (p: Profile)
    ensures |p.channels| == 1 && p.channels[0].key == ChannelKey(channelName)
    ensures |p.organizations| == 1 && p.organizations[0].key == org.name && p.organizations[0].mspid == org.mspName
    ensures |p.certificateAuthorities| == 1
  {
    Profile(
      "connection." + org.name + ".profile",
      "hlfv1",
      "Connection profile for organization " + org.name,
      "1.0",
      [ChannelEntry(ChannelKey(channelName), OrdererNames(org, org.orderers), ChannelPeers(org, org.peers))],
      [OrgEntry(org.name, org.mspName, PeerNames(org, org.peers), [org.caName])],
      OrdererEndpoints(org, org.orderers),
      PeerEndpoints(org, org.peers),
      [CaEntryOf(org)])
  }

  /**
   * Every peer `<name>.<fullName>` is in the channel's peer map with all four role flags, in
   * the organization's peer list and among the peer endpoints, with the SSL name override
   * equal to its name.
   */
  lemma ProfileListsEveryPeer(org: Org, channelName: Option<string>)
    ensures var p := ProfileOf(org, channelName);
      forall i :: 0 <= i < |org.peers| ==>
        var n := PeerFullName(org, org.peers[i]);
        && ChannelPeer(n, true, true, true, true) in p.channels[0].peers
        && n in p.organizations[0].peers
        && (exists j :: 0 <= j < |p.peers| && p.peers[j].name == n && p.peers[j].sslTargetNameOverride == n)
  {
    var p := ProfileOf(org, channelName);
    forall i | 0 <= i < |org.peers|
      ensures ChannelPeer(PeerFullName(org, org.peers[i]), true, true, true, true) in p.channels[0].peers
      ensures PeerFullName(org, org.peers[i]) in p.organizations[0].peers
      ensures p.peers[i].name == PeerFullName(org, org.peers[i])
    {
      assert p.channels[0].peers[i] == ChannelPeer(PeerFullName(org, org.peers[i]), true, true, true, true);
      assert p.organizations[0].peers[i] == PeerFullName(org, org.peers[i]);
    }
  }

  /** The channel lists every orderer `<name>.<fullName>`, and every orderer has an endpoint. */
  lemma ProfileListsEveryOrderer(org: Org, channelName: Option<string>)
    ensures var p := ProfileOf(org, channelName);
      forall i :: 0 <= i < |org.orderers| ==>
        var n := OrdererFullName(org, org.orderers[i]);
        && n in p.channels[0].orderers
        && (exists j :: 0 <= j < |p.orderers| && p.orderers[j].name == n && p.orderers[j].sslTargetNameOverride == n)
  {
    var p := ProfileOf(org, channelName);
    forall i | 0 <= i < |org.orderers|
      ensures OrdererFullName(org, org.orderers[i]) in p.channels[0].orderers
      ensures p.orderers[i].name == OrdererFullName(org, org.orderers[i])
    {
      assert p.channels[0].orderers[i] == OrdererFullName(org, org.orderers[i]);
    }
  }

  /** The CA entry does not depend on `isSecure`: the CA is always reached over plain `http`. */
  lemma CaEntryIgnoresIsSecure(org: Org, channelName: Option<string>)
    ensures ProfileOf(org.(isSecure := true), channelName).certificateAuthorities
         == ProfileOf(org.(isSecure := false), channelName).certificateAuthorities
    ensures var ca := ProfileOf(org, channelName).certificateAuthorities[0];
      ca.enrollId == org.ca.options.user && ca.enrollSecret == org.ca.options.password
      && ca.url[..17] == "http://localhost:"
  {
  }

  // ---- reading endpoint URLs back ----

  /** Whether a URL is secure and its port, for `grpc[s]://localhost:<digits>` URLs. */
  function ParseEndpointUrl(url: string): (r: Option<(bool, nat)>)
  {
    if |url| > |SecurePrefix| && url[..|SecurePrefix|] == SecurePrefix && AllDigits(url[|SecurePrefix|..]) then
      Some((true, ParseDigits(url[|SecurePrefix|..])))
    else if |url| > |PlainPrefix| && url[..|PlainPrefix|] == PlainPrefix && AllDigits(url[|PlainPrefix|..]) then
      Some((false, ParseDigits(url[|PlainPrefix|..])))
    else None
  }

  lemma SplitPrefixed(prefix: string, rest: string)
    ensures (prefix + rest)[..|prefix|] == prefix && (prefix + rest)[|prefix|..] == rest
  {
  }

  /** An endpoint URL reads back as `grpcs` exactly when the organization is secure, on the node's first port. */
  lemma EndpointUrlReadsBack(isSecure: bool, port: nat)
    ensures ParseEndpointUrl(EndpointUrl(isSecure, Port(port))) == Some((isSecure, port))
  {
    var digits := NatToString(port);
    ParseNatToString(port);
    if isSecure {
      SplitPrefixed(SecurePrefix, digits);
    } else {
      SplitPrefixed(PlainPrefix, digits);
      var url := PlainPrefix + digits;
      assert url[4] != SecurePrefix[4];
    }
  }

  /** `createTemplateConnectionProfile`: true exactly when the profile is saved. */
  function CreateTemplateConnectionProfile(org: Org, channelName: Option<string>, write: Reply<()>)
    : (r: Saved<Profile>)
    ensures r.ok <==> write.Ok?
    ensures r.ok ==> r.written == Some(ProfileOf(org, channelName))
  {
    CreateTemplate(ProfileOf(org, channelName), write)
  }
}
