/** Edge endpoints in the `node:port:compass` syntax of the Graphviz DOT
    language, as a structured value.  Connector pins are the ports `p<n>l`
    and `p<n>r` (left and right column of the pin table), cable wires the
    ports `w<n>`, and an endpoint may also name a node without a port.
    `Render` writes an endpoint as text; `Parse` reads one back and is the
    reference against which the edge builders are checked. */
module Ports {
  import opened Wrappers
  import opened Strings

  datatype Side = Left | Right

  datatype Compass = East | West

  datatype Port = NoPort | PinPort(pin: nat, side: Side) | WirePort(wire: nat)

  datatype Address = Address(node: string, port: Port, compass: Compass)

  function SideCode(s: Side): char
  {
    match s
    case Left => 'l'
    case Right => 'r'
  }

  function CompassCode(c: Compass): char
  {
    match c
    case East => 'e'
    case West => 'w'
  }

  function PortText(p: Port): string
  {
    match p
    case NoPort => ""
    case PinPort(n, s) => ":p" + NatToString(n) + [SideCode(s)]
    case WirePort(n) => ":w" + NatToString(n)
  }

  /** The DOT text of an endpoint. */
  function Render(a: Address): string
  {
    a.node + PortText(a.port) + ":" + [CompassCode(a.compass)]
  }

  /** The text of an endpoint piece by piece, as the edge builders write it. */
  lemma RenderPieces(a: Address)
    ensures Render(a) == a.node + PortText(a.port) + [':', CompassCode(a.compass)]
    ensures a.port.PinPort? ==>
      Render(a) == a.node + ":p" + NatToString(a.port.pin) + [SideCode(a.port.side)] + [':', CompassCode(a.compass)]
    ensures a.port.WirePort? ==>
      Render(a) == a.node + ":w" + NatToString(a.port.wire) + [':', CompassCode(a.compass)]
  {
  }

  function ParseSide(c: char): Option<Side>
  {
    if c == 'l' then Some(Left) else if c == 'r' then Some(Right) else None
  }

  function ParseCompass(c: char): Option<Compass>
  {
    if c == 'e' then Some(East) else if c == 'w' then Some(West) else None
  }

  /** Reads the text of a port name (what follows the node's ':'). */
  function ParsePort(t: string): Option<Port>
  {
    if |t| >= 3 && t[0] == 'p' && AllDigits(t[1..|t| - 1]) && ParseSide(t[|t| - 1]).Some? then
      Some(PinPort(ParseDigits(t[1..|t| - 1]), ParseSide(t[|t| - 1]).value))
    else if |t| >= 2 && t[0] == 'w' && AllDigits(t[1..]) then
      Some(WirePort(ParseDigits(t[1..])))
    else
      None
  }

  /** Reads an endpoint: a compass point after the last ':', then an
      optional port after the ':' before it. */
  function Parse(s: string): Option<Address>
  {
    if |s| < 2 || s[|s| - 2] != ':' || ParseCompass(s[|s| - 1]).None? then None
    else
      var compass := ParseCompass(s[|s| - 1]).value;
      var rest := s[..|s| - 2];
      match LastIndexOf(rest, ':')
      case None => Some(Address(rest, NoPort, compass))
      case Some(i) =>
        match ParsePort(rest[i + 1..])
        case None => None
        case Some(p) => Some(Address(rest[..i], p, compass))
  }

  /** The port name written after the node reads back as the same port. */
  lemma ParsePortText(p: Port)
    requires p != NoPort
    ensures |PortText(p)| > 0 && PortText(p)[0] == ':'
    ensures ':' !in PortText(p)[1..]
    ensures ParsePort(PortText(p)[1..]) == Some(p)
  {
    match p
    case PinPort(n, s) =>
      var d := NatToString(n);
      var t := PortText(p)[1..];
      assert t == ['p'] + d + [SideCode(s)];
      assert t[1..|t| - 1] == d;
      ParseNatToString(n);
    case WirePort(n) =>
      var d := NatToString(n);
      var t := PortText(p)[1..];
      assert t == ['w'] + d;
      assert t[1..] == d;
      ParseNatToString(n);
  }

  /** An endpoint without a port reads back as its node and compass point. */
  lemma ParseNodeOnly(node: string, c: Compass)
    requires ':' !in node
    ensures Parse(node + [':', CompassCode(c)]) == Some(Address(node, NoPort, c))
  {
    var s := node + [':', CompassCode(c)];
    assert s[..|s| - 2] == node;
  }

  /** An endpoint with a port name free of ':' reads back as its node, that
      port and its compass point. */
  lemma ParseNodePort(node: string, t: string, p: Port, c: Compass)
    requires ':' !in node && ':' !in t && ParsePort(t) == Some(p)
    ensures Parse(node + [':'] + t + [':', CompassCode(c)]) == Some(Address(node, p, c))
  {
    var s := node + [':'] + t + [':', CompassCode(c)];
    var rest := s[..|s| - 2];
    assert rest == node + [':'] + t;
    LastIndexOfJoin(node, ':', t);
    assert rest[|node| + 1..] == t;
    assert rest[..|node|] == node;
  }

  /** The text of an endpoint with a port: node, ':', port name, ':', compass. */
  lemma RenderWithPort(a: Address)
    requires a.port != NoPort
    ensures |PortText(a.port)| > 0
    ensures Render(a) == a.node + [':'] + PortText(a.port)[1..] + [':', CompassCode(a.compass)]
  {
    ParsePortText(a.port);
    var t := PortText(a.port);
    assert t == [':'] + t[1..];
    RenderPieces(a);
  }

  /** Every endpoint whose node name has no ':' reads back as itself, so two
      such endpoints with the same text are the same endpoint. */
  lemma ParseRender(a: Address)
    requires ':' !in a.node
    ensures Parse(Render(a)) == Some(a)
  {
    if a.port == NoPort {
      assert Render(a) == a.node + [':', CompassCode(a.compass)] by {
        RenderPieces(a);
      }
      ParseNodeOnly(a.node, a.compass);
    } else {
      RenderWithPort(a);
      var t := PortText(a.port)[1..];
      assert ':' !in t && ParsePort(t) == Some(a.port) by {
        ParsePortText(a.port);
      }
      ParseNodePort(a.node, t, a.port, a.compass);
    }
  }
}
