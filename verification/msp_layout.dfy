/**
 * The MSP directory layout of an organization, as pure path construction. A path is a list
 * of segments, rooted at the network configuration path; rendering joins them with `/`.
 */
module MspLayout {
  import opened Text
  import opened Topology

  type Path = seq<string>

  function RenderPath(p: Path): string {
    Join(p, "/")
  }

  /** The eight folders of a node's MSP directory. */
  const PeerMspFolders: seq<string> := [
    "admincerts", "cacerts", "intermediatecerts", "crls",
    "keystore", "signcerts", "tlscacerts", "tlsintermediatecerts"]

  /** The folders of the organization MSP. */
  const OrgMspFolders: seq<string> := ["admincerts", "cacerts", "tlscacerts"]

  /** The folders of the organization admin's MSP. */
  const AdminMspFolders: seq<string> := ["cacerts", "keystore", "signcerts", "tlscacerts"]

  /** `<root>/organizations/peerOrganizations/<fullName>` */
  function OrgBase(net: Network): (p: Path)
    ensures |p| == 4
  {
    [net.options.networkConfigPath, "organizations", "peerOrganizations", net.org.fullName]
  }

  function PeersBase(net: Network): (p: Path)
    ensures |p| == 5
  {
    OrgBase(net) + ["peers"]
  }

  /** `…/peers/<peer.name>.<fullName>` */
  function PeerDir(net: Network, peer: Peer): (p: Path)
    ensures |p| == 6
  {
    PeersBase(net) + [PeerFullName(net.org, peer)]
  }

  function PeerMspPath(net: Network, peer: Peer): (p: Path)
    ensures |p| == 7
  {
    PeerDir(net, peer) + ["msp"]
  }

  function PeerTlsPath(net: Network, peer: Peer): (p: Path)
    ensures |p| == 7
  {
    PeerDir(net, peer) + ["tls"]
  }

  function TlsCaDir(net: Network): (p: Path)
    ensures |p| == 5
  {
    OrgBase(net) + ["tlsca"]
  }

  function OrgMspPath(net: Network): (p: Path)
    ensures |p| == 5
  {
    OrgBase(net) + ["msp"]
  }

  function OrgUsersPath(net: Network): (p: Path)
    ensures |p| == 5
  {
    OrgBase(net) + ["users"]
  }

  /** The admin user MSP as the directory creation and the NodeOU write name it. */
  function AdminUserMspDir(net: Network): (p: Path)
    ensures |p| == 7
  {
    OrgUsersPath(net) + [net.org.adminUserFull, "msp"]
  }

  /** The admin user MSP as the certificate writes name it: `users/Admin@<fullName>/msp`. */
  function AdminCertsMspDir(net: Network): (p: Path)
    ensures |p| == 7
  {
    OrgUsersPath(net) + ["Admin@" + net.org.fullName, "msp"]
  }

  /** The CA's TLS root certificate: `<root>/organizations/fabric-ca/<org.name>/crypto/ca-cert.pem`. */
  function FabricCaCert(net: Network): Path {
    [net.options.networkConfigPath, "organizations", "fabric-ca", net.org.name, "crypto", "ca-cert.pem"]
  }

  function Under(base: Path, folders: seq<string>): (ps: seq<Path>)
    ensures |ps| == |folders|
    ensures forall i :: 0 <= i < |ps| ==> ps[i] == base + [folders[i]]
  {
    if |folders| == 0 then [] else [base + [folders[0]]] + Under(base, folders[1..])
  }

  /** The folders `createMSPDirectories` creates for one peer, in creation order. */
  function PeerFolders(net: Network, peer: Peer): (ps: seq<Path>)
    ensures |ps| == 3 + |PeerMspFolders|
  {
    [PeerDir(net, peer), PeerTlsPath(net, peer), PeerMspPath(net, peer)]
      + Under(PeerMspPath(net, peer), PeerMspFolders)
  }

  function AllPeerFolders(net: Network, peers: seq<Peer>): seq<Path> {
    if |peers| == 0 then [] else PeerFolders(net, peers[0]) + AllPeerFolders(net, peers[1..])
  }

  /**
   * `createMSPDirectories`, as the list of folders it creates in order: the peers base and
   * tlsca folders, every peer's folders, the organization MSP, then the admin user's MSP.
   */
  function MspDirectories(net: Network): (ps: seq<Path>)
  {
    [PeersBase(net), TlsCaDir(net)]
      + AllPeerFolders(net, net.org.peers)
      + [OrgMspPath(net)] + Under(OrgMspPath(net), OrgMspFolders)
      + [OrgUsersPath(net), OrgUsersPath(net) + [net.org.adminUserFull], AdminUserMspDir(net)]
      + Under(AdminUserMspDir(net), AdminMspFolders)
  }

  /** Every folder created for peers lies under `…/peers`. */
  lemma PeerFoldersUnderPeers(net: Network, peer: Peer)
    ensures forall p :: p in PeerFolders(net, peer) ==> |p| >= 6 && p[4] == "peers"
  {
    var ps := PeerFolders(net, peer);
    forall p | p in ps ensures |p| >= 6 && p[4] == "peers" {
      var i :| 0 <= i < |ps| && ps[i] == p;
      if i >= 3 {
        assert p == PeerMspPath(net, peer) + [PeerMspFolders[i - 3]];
      }
    }
  }

  lemma PeerFoldersComplete(net: Network, peer: Peer)
    ensures PeerTlsPath(net, peer) in PeerFolders(net, peer)
    ensures PeerMspPath(net, peer) in PeerFolders(net, peer)
    ensures forall f :: f in PeerMspFolders ==> PeerMspPath(net, peer) + [f] in PeerFolders(net, peer)
  {
    var ps := PeerFolders(net, peer);
    assert ps[1] == PeerTlsPath(net, peer);
    assert ps[2] == PeerMspPath(net, peer);
    forall f | f in PeerMspFolders ensures PeerMspPath(net, peer) + [f] in ps {
      var i :| 0 <= i < |PeerMspFolders| && PeerMspFolders[i] == f;
      assert ps[3 + i] == PeerMspPath(net, peer) + [f];
    }
  }

  lemma {:induction false} AllPeerFoldersUnderPeers(net: Network, peers: seq<Peer>)
    ensures forall p :: p in AllPeerFolders(net, peers) ==> |p| >= 6 && p[4] == "peers"
  {
    if |peers| > 0 {
      PeerFoldersUnderPeers(net, peers[0]);
      AllPeerFoldersUnderPeers(net, peers[1..]);
    }
  }

  lemma {:induction false} AllPeerFoldersComplete(net: Network, peers: seq<Peer>, peer: Peer)
    requires peer in peers
    ensures PeerTlsPath(net, peer) in AllPeerFolders(net, peers)
    ensures PeerMspPath(net, peer) in AllPeerFolders(net, peers)
    ensures forall f :: f in PeerMspFolders ==> PeerMspPath(net, peer) + [f] in AllPeerFolders(net, peers)
  {
    if peers[0] == peer {
      PeerFoldersComplete(net, peer);
    } else {
      AllPeerFoldersComplete(net, peers[1..], peer);
    }
  }

  /** A path of the form `base + [f]` lies in `Under(base, folders)` exactly when `f` is one of them. */
  lemma UnderMembers(base: Path, folders: seq<string>, f: string)
    ensures base + [f] in Under(base, folders) <==> f in folders
  {
    var ps := Under(base, folders);
    if base + [f] in ps {
      var i :| 0 <= i < |ps| && ps[i] == base + [f];
      assert (base + [f])[|base|] == f;
      assert (base + [folders[i]])[|base|] == folders[i];
    }
    if f in folders {
      var i :| 0 <= i < |folders| && folders[i] == f;
      assert ps[i] == base + [f];
    }
  }

  /** `createMSPDirectories` split into its peer part and the rest. */
  lemma MspDirectoriesParts(net: Network)
    ensures MspDirectories(net) ==
      [PeersBase(net), TlsCaDir(net)] + AllPeerFolders(net, net.org.peers) + OrgAndAdminFolders(net)
  {
  }

  function OrgAndAdminFolders(net: Network): seq<Path> {
    [OrgMspPath(net)] + Under(OrgMspPath(net), OrgMspFolders)
      + [OrgUsersPath(net), OrgUsersPath(net) + [net.org.adminUserFull], AdminUserMspDir(net)]
      + Under(AdminUserMspDir(net), AdminMspFolders)
  }

  /** Every peer gets its `tls` and `msp` folders and the eight MSP folders. */
  lemma PeerLayout(net: Network, peer: Peer, f: string)
    requires peer in net.org.peers
    ensures PeerTlsPath(net, peer) in MspDirectories(net)
    ensures PeerMspPath(net, peer) in MspDirectories(net)
    ensures f in PeerMspFolders ==> PeerMspPath(net, peer) + [f] in MspDirectories(net)
  {
    MspDirectoriesParts(net);
    AllPeerFoldersComplete(net, net.org.peers, peer);
  }

  /** The organization MSP gets exactly admincerts, cacerts and tlscacerts. */
  lemma OrgMspLayout(net: Network, f: string)
    ensures OrgMspPath(net) + [f] in MspDirectories(net) <==> f in OrgMspFolders
  {
    MspDirectoriesParts(net);
    var head := [PeersBase(net), TlsCaDir(net)];
    var peerPart := AllPeerFolders(net, net.org.peers);
    var orgPart := Under(OrgMspPath(net), OrgMspFolders);
    var users := [OrgUsersPath(net), OrgUsersPath(net) + [net.org.adminUserFull], AdminUserMspDir(net)];
    var adminPart := Under(AdminUserMspDir(net), AdminMspFolders);
    var o := OrgMspPath(net) + [f];
    assert o[4] == "msp" && |o| == 6;
    assert o !in head;
    assert o !in peerPart by {
      AllPeerFoldersUnderPeers(net, net.org.peers);
    }
    assert o !in users by {
      assert users[1][4] == "users";
    }
    assert o !in adminPart by {
      assert forall q :: q in adminPart ==> |q| == 8;
    }
    UnderMembers(OrgMspPath(net), OrgMspFolders, f);
    assert MspDirectories(net) == head + peerPart + ([OrgMspPath(net)] + orgPart + users + adminPart);
  }

  /** The admin user MSP gets exactly cacerts, keystore, signcerts and tlscacerts. */
  lemma AdminMspLayout(net: Network, f: string)
    ensures AdminUserMspDir(net) + [f] in MspDirectories(net) <==> f in AdminMspFolders
  {
    MspDirectoriesParts(net);
    var head := [PeersBase(net), TlsCaDir(net)];
    var peerPart := AllPeerFolders(net, net.org.peers);
    var orgPart := Under(OrgMspPath(net), OrgMspFolders);
    var users := [OrgUsersPath(net), OrgUsersPath(net) + [net.org.adminUserFull], AdminUserMspDir(net)];
    var adminPart := Under(AdminUserMspDir(net), AdminMspFolders);
    var a := AdminUserMspDir(net) + [f];
    assert a[4] == "users" && |a| == 8;
    assert a !in head;
    assert a !in peerPart by {
      AllPeerFoldersUnderPeers(net, net.org.peers);
    }
    assert a !in users;
    assert a !in [OrgMspPath(net)] + orgPart by {
      assert forall q :: q in orgPart ==> |q| == 6;
    }
    UnderMembers(AdminUserMspDir(net), AdminMspFolders, f);
    assert MspDirectories(net) == head + peerPart + ([OrgMspPath(net)] + orgPart + users) + adminPart;
  }

  /** The tlsca folder, the organization MSP and the admin user MSP are created themselves. */
  lemma BaseFoldersCreated(net: Network)
    ensures TlsCaDir(net) in MspDirectories(net)
    ensures OrgMspPath(net) in MspDirectories(net)
    ensures AdminUserMspDir(net) in MspDirectories(net)
  {
    MspDirectoriesParts(net);
    var rest := OrgAndAdminFolders(net);
    assert rest[0] == OrgMspPath(net);
    assert rest[|OrgMspFolders| + 3] == AdminUserMspDir(net);
  }

  /**
   * The folders the admin's certificates are written into (`users/Admin@<fullName>/msp/<f>`)
   * are created exactly when the admin user's folder name is `Admin@<fullName>`, and then
   * they are the four admin MSP folders.
   */
  lemma AdminCertsFolderCreated(net: Network, f: string)
    ensures AdminCertsMspDir(net) + [f] in MspDirectories(net)
        <==> net.org.adminUserFull == "Admin@" + net.org.fullName && f in AdminMspFolders
  {
    MspDirectoriesParts(net);
    var head := [PeersBase(net), TlsCaDir(net)];
    var peerPart := AllPeerFolders(net, net.org.peers);
    var orgPart := Under(OrgMspPath(net), OrgMspFolders);
    var users := [OrgUsersPath(net), OrgUsersPath(net) + [net.org.adminUserFull], AdminUserMspDir(net)];
    var adminPart := Under(AdminUserMspDir(net), AdminMspFolders);
    var a := AdminCertsMspDir(net) + [f];
    assert a[4] == "users" && |a| == 8;
    assert a !in head;
    assert a !in peerPart by {
      AllPeerFoldersUnderPeers(net, net.org.peers);
    }
    assert a !in users;
    assert a !in [OrgMspPath(net)] + orgPart by {
      assert forall q :: q in orgPart ==> |q| == 6;
    }
    assert MspDirectories(net) == head + peerPart + ([OrgMspPath(net)] + orgPart + users) + adminPart;
    if a in adminPart {
      var i :| 0 <= i < |adminPart| && adminPart[i] == a;
      assert a[5] == adminPart[i][5] == net.org.adminUserFull;
      assert AdminCertsMspDir(net) == AdminUserMspDir(net);
      UnderMembers(AdminUserMspDir(net), AdminMspFolders, f);
    }
    if net.org.adminUserFull == "Admin@" + net.org.fullName && f in AdminMspFolders {
      assert AdminCertsMspDir(net) == AdminUserMspDir(net);
      UnderMembers(AdminUserMspDir(net), AdminMspFolders, f);
    }
  }
}
