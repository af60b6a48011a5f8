/**
 * The NodeOU configuration (`config.yaml`) written at each MSP root: role classification
 * enabled, and the client, peer, admin and orderer OU identifiers all bound to the
 * organization's root CA certificate.
 */
module NodeOu {
  import opened Wrappers
  import opened Text

  datatype OuIdentifier = OuIdentifier(certificate: string, organizationalUnit: string)

  datatype NodeOus = NodeOus(
    enable: bool,
    client: OuIdentifier,
    peer: OuIdentifier,
    admin: OuIdentifier,
    orderer: OuIdentifier)

  /** `cacerts/ca.<fullName>-cert.pem`, relative to the MSP root. */
  function RootCaCertificate(fullName: string): string {
    "cacerts/ca." + fullName + "-cert.pem"
  }

  /** The descriptor `generateConfigOUFile` writes for an organization. */
  function ConfigFor(fullName: string): (c: NodeOus)
    ensures c.enable
    ensures c.client.certificate == c.peer.certificate == c.admin.certificate
         == c.orderer.certificate == RootCaCertificate(fullName)
    ensures [c.client.organizationalUnit, c.peer.organizationalUnit,
             c.admin.organizationalUnit, c.orderer.organizationalUnit]
         == ["client", "peer", "admin", "orderer"]
  {
    var cert := RootCaCertificate(fullName);
    NodeOus(true, OuIdentifier(cert, "client"), OuIdentifier(cert, "peer"),
            OuIdentifier(cert, "admin"), OuIdentifier(cert, "orderer"))
  }

  const CertificateKey := "    Certificate: "
  const UnitKey := "    OrganizationalUnitIdentifier: "
  const EnableKey := "  Enable: "

  function RenderOu(heading: string, ou: OuIdentifier): seq<string> {
    ["  " + heading + ":", CertificateKey + ou.certificate, UnitKey + ou.organizationalUnit]
  }

  /** The descriptor's lines, in the order the template writes them (blank lines left out). */
  function Render(c: NodeOus): (lines: seq<string>)
    ensures |lines| == 14
  {
    ["NodeOUs:", EnableKey + BoolToString(c.enable)]
      + RenderOu("ClientOUIdentifier", c.client)
      + RenderOu("PeerOUIdentifier", c.peer)
      + RenderOu("AdminOUIdentifier", c.admin)
      + RenderOu("OrdererOUIdentifier", c.orderer)
  }

  /** The indentation the template leaves on its last line, after the final line break. */
  const TrailingIndent := "        "

  /**
   * The file content as the template writes it: a line break, the lines joined by line
   * breaks, then a line break and a line of indentation.
   */
  function FileContent(c: NodeOus): string {
    "\n" + Join(Render(c), "\n") + "\n" + TrailingIndent
  }

  function StripPrefix(prefix: string, line: string): Option<string> {
    if |prefix| <= |line| && line[..|prefix|] == prefix then Some(line[|prefix|..]) else None
  }

  lemma StripPrefixOfConcat(prefix: string, rest: string)
    ensures StripPrefix(prefix, prefix + rest) == Some(rest)
  {
    assert (prefix + rest)[..|prefix|] == prefix;
    assert (prefix + rest)[|prefix|..] == rest;
  }

  function ParseOu(heading: string, lines: seq<string>): Option<OuIdentifier>
    requires |lines| == 3
  {
    if lines[0] != "  " + heading + ":" then None
    else
      match (StripPrefix(CertificateKey, lines[1]), StripPrefix(UnitKey, lines[2]))
      case (Some(cert), Some(unit)) => Some(OuIdentifier(cert, unit))
      case _ => None
  }

  /** Reads a descriptor back from its lines; `None` if they do not have the template's shape. */
  function Parse(lines: seq<string>): Option<NodeOus> {
    if |lines| != 14 || lines[0] != "NodeOUs:" then None
    else
      match StripPrefix(EnableKey, lines[1])
      case None => None
      case Some(flag) =>
        match (ParseBool(flag), ParseOu("ClientOUIdentifier", lines[2..5]),
               ParseOu("PeerOUIdentifier", lines[5..8]), ParseOu("AdminOUIdentifier", lines[8..11]),
               ParseOu("OrdererOUIdentifier", lines[11..14]))
        case (Some(e), Some(cl), Some(pe), Some(ad), Some(or)) => Some(NodeOus(e, cl, pe, ad, or))
        case _ => None
  }

  lemma ParseRenderOu(heading: string, ou: OuIdentifier)
    ensures ParseOu(heading, RenderOu(heading, ou)) == Some(ou)
  {
    StripPrefixOfConcat(CertificateKey, ou.certificate);
    StripPrefixOfConcat(UnitKey, ou.organizationalUnit);
  }

  /** The written descriptor determines the configuration: parsing the rendering gives it back. */
  lemma ParseRender(c: NodeOus)
    ensures Parse(Render(c)) == Some(c)
  {
    var lines := Render(c);
    StripPrefixOfConcat(EnableKey, BoolToString(c.enable));
    assert lines[2..5] == RenderOu("ClientOUIdentifier", c.client);
    assert lines[5..8] == RenderOu("PeerOUIdentifier", c.peer);
    assert lines[8..11] == RenderOu("AdminOUIdentifier", c.admin);
    assert lines[11..14] == RenderOu("OrdererOUIdentifier", c.orderer);
    ParseRenderOu("ClientOUIdentifier", c.client);
    ParseRenderOu("PeerOUIdentifier", c.peer);
    ParseRenderOu("AdminOUIdentifier", c.admin);
    ParseRenderOu("OrdererOUIdentifier", c.orderer);
  }

  /** Distinct organizations bind their roles to distinct root certificate files. */
  lemma RootCaCertificateInjective(x: string, y: string)
    ensures RootCaCertificate(x) == RootCaCertificate(y) ==> x == y
  {
    if RootCaCertificate(x) == RootCaCertificate(y) {
      assert RootCaCertificate(x) == "cacerts/ca." + (x + "-cert.pem");
      assert RootCaCertificate(y) == "cacerts/ca." + (y + "-cert.pem");
      StripPrefixOfConcat("cacerts/ca.", x + "-cert.pem");
      StripPrefixOfConcat("cacerts/ca.", y + "-cert.pem");
      assert x == (x + "-cert.pem")[..|x|];
      assert y == (y + "-cert.pem")[..|y|];
    }
  }

  /**
   * Reading back any organization's descriptor finds NodeOUs enabled and all four roles bound
   * to that organization's root CA certificate; distinct organizations get distinct files.
   */
  lemma WrittenConfigBindsRootCa(fullName: string, other: string)
    ensures Parse(Render(ConfigFor(fullName))) == Some(ConfigFor(fullName))
    ensures fullName != other ==> Render(ConfigFor(fullName)) != Render(ConfigFor(other))
  {
    ParseRender(ConfigFor(fullName));
    ParseRender(ConfigFor(other));
    RootCaCertificateInjective(fullName, other);
  }

  /** Reads a descriptor back from the file content, line by line, skipping blank lines. */
  function ReadFile(content: string): Option<NodeOus> {
    Parse(NonBlank(Split(content, '\n')))
  }

  /**
   * No line of a descriptor whose certificate paths have no line break contains one, and
   * every line holds a colon, so none is blank.
   */
  lemma RenderedLinesUnbroken(fullName: string)
    requires '\n' !in fullName
    ensures forall i :: 0 <= i < |Render(ConfigFor(fullName))| ==>
      '\n' !in Render(ConfigFor(fullName))[i] && ':' in Render(ConfigFor(fullName))[i]
  {
    var lines := Render(ConfigFor(fullName));
    var cert := RootCaCertificate(fullName);
    assert '\n' !in cert by {
      assert cert == "cacerts/ca." + fullName + "-cert.pem";
    }
    var c := ConfigFor(fullName);
    assert BoolToString(true) == "true";
    assert forall k :: 0 <= k < 2 ==> '\n' !in lines[k];
    assert lines[0][7] == ':' && lines[1][8] == ':';
    RenderOuUnbroken("ClientOUIdentifier", c.client);
    RenderOuUnbroken("PeerOUIdentifier", c.peer);
    RenderOuUnbroken("AdminOUIdentifier", c.admin);
    RenderOuUnbroken("OrdererOUIdentifier", c.orderer);
    assert lines[2..5] == RenderOu("ClientOUIdentifier", c.client);
    assert lines[5..8] == RenderOu("PeerOUIdentifier", c.peer);
    assert lines[8..11] == RenderOu("AdminOUIdentifier", c.admin);
    assert lines[11..14] == RenderOu("OrdererOUIdentifier", c.orderer);
    forall i | 0 <= i < |lines|
      ensures '\n' !in lines[i] && ':' in lines[i]
    {
      if 2 <= i < 5 { assert lines[i] == lines[2..5][i - 2]; }
      else if 5 <= i < 8 { assert lines[i] == lines[5..8][i - 5]; }
      else if 8 <= i < 11 { assert lines[i] == lines[8..11][i - 8]; }
      else if 11 <= i { assert lines[i] == lines[11..14][i - 11]; }
    }
  }

  lemma RenderOuUnbroken(heading: string, ou: OuIdentifier)
    requires '\n' !in heading && '\n' !in ou.certificate && '\n' !in ou.organizationalUnit
    ensures forall k :: 0 <= k < 3 ==> '\n' !in RenderOu(heading, ou)[k] && ':' in RenderOu(heading, ou)[k]
  {
    var lines := RenderOu(heading, ou);
    assert lines[0][|lines[0]| - 1] == ':';
    assert lines[1][15] == ':' && lines[2][32] == ':';
  }

  /** The template's text splits into an empty line, the rendered lines, and the indented last line. */
  lemma SplitFileContent(fullName: string)
    requires '\n' !in fullName
    ensures Split(FileContent(ConfigFor(fullName)), '\n') == [""] + Render(ConfigFor(fullName)) + [TrailingIndent]
  {
    var lines := Render(ConfigFor(fullName));
    var body := Join(lines, "\n");
    RenderedLinesUnbroken(fullName);
    SplitJoinThen(lines, '\n', TrailingIndent);
    assert FileContent(ConfigFor(fullName)) == "" + ['\n'] + (body + ['\n'] + TrailingIndent);
    SplitAtSep("", '\n', body + ['\n'] + TrailingIndent);
  }

  /** Skipping the blank lines of the split template text leaves exactly the rendered lines. */
  lemma NonBlankFileLines(fullName: string)
    requires '\n' !in fullName
    ensures NonBlank(Split(FileContent(ConfigFor(fullName)), '\n')) == Render(ConfigFor(fullName))
  {
    var lines := Render(ConfigFor(fullName));
    SplitFileContent(fullName);
    RenderedLinesUnbroken(fullName);
    forall i | 0 <= i < |lines| ensures !IsBlank(lines[i]) {
      ColonNotBlank(lines[i]);
    }
    NonBlankConcat([""] + lines, [TrailingIndent]);
    NonBlankConcat([""], lines);
    NonBlankKeeps(lines);
    assert NonBlank([TrailingIndent]) == [];
    assert NonBlank([""]) == [];
  }

  /**
   * The written file, as the template lays it out, read back line by line with its blank
   * lines skipped, gives the organization's descriptor; distinct organizations get distinct
   * files (when their names have no line break).
   */
  lemma WrittenFileBindsRootCa(fullName: string, other: string)
    ensures '\n' !in fullName ==> ReadFile(FileContent(ConfigFor(fullName))) == Some(ConfigFor(fullName))
    ensures '\n' !in fullName && '\n' !in other && fullName != other ==>
      FileContent(ConfigFor(fullName)) != FileContent(ConfigFor(other))
  {
    if '\n' !in fullName {
      NonBlankFileLines(fullName);
      ParseRender(ConfigFor(fullName));
    }
    if '\n' !in other {
      NonBlankFileLines(other);
      ParseRender(ConfigFor(other));
    }
    RootCaCertificateInjective(fullName, other);
  }
}
