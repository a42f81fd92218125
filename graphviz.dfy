/** Edge derivation of the Graphviz assembler (src/wireviz/wv_graphviz.py):
    the self-edges for a connector's internal loops, the colour and the
    endpoints of a wire edge, the direction of an arrow marker, and the
    colour, direction and endpoints of a mate edge.  Connectors, cables,
    connections and mates arrive already resolved; only the fields these
    functions read are kept. */
module Graphviz {
  import opened Wrappers
  import opened Strings
  import opened Ports

  /** Pin `index` (0-based) of the connector named `parent`. */
  datatype PinRef = PinRef(parent: string, index: nat)

  /** Wire `index` (0-based) of the cable named `parent`; `color` is the
      wire's padded HTML colour text, absent for a shield. */
  datatype WireRef = WireRef(parent: string, index: nat, color: Option<string>)

  /** One resolved wire: an optional pin on the left, the wire, an optional
      pin on the right. */
  datatype Connection = Connection(from: Option<PinRef>, via: WireRef, to: Option<PinRef>)

  /** The connector fields the edge builders read; each loop is a pair of
      pin numbers bridged inside the connector. */
  datatype Connector = Connector(
    designator: string,
    style: string,
    portsLeft: bool,
    portsRight: bool,
    loops: seq<(nat, nat)>)

  datatype GraphError = NoSideForLoops | MissingConnector(designator: string) | UnknownMate

  const Black := "#000000"

  /** The compass point an edge leaves from a port on the given side. */
  function SideCompass(s: Side): Compass
  {
    match s
    case Left => West
    case Right => East
  }

  /** Endpoint of a loop edge at `pin` on `side` of the connector. */
  function LoopEnd(designator: string, pin: nat, side: Side): Address
  {
    Address(designator, PinPort(pin, side), SideCompass(side))
  }

  /** The loops of `connector` as (head, tail) endpoint pairs, drawn on the
      left when the connector has left-hand ports, else on the right;
      there is no side to draw them on when it has neither. */
  method ConnectorLoops(connector: Connector) returns (r: Result<seq<(string, string)>, GraphError>)
    ensures r.Failure? <==> !connector.portsLeft && !connector.portsRight
    ensures r.Failure? ==> r.error == NoSideForLoops
    ensures r.Success? ==>
      var side := if connector.portsLeft then Left else Right;
      |r.value| == |connector.loops| &&
      forall k :: 0 <= k < |connector.loops| ==>
        r.value[k] == (Render(LoopEnd(connector.designator, connector.loops[k].0, side)),
                       Render(LoopEnd(connector.designator, connector.loops[k].1, side)))
  {
    var loopSide: char, loopDir: char;
    ghost var side: Side;
    if connector.portsLeft {
      loopSide, loopDir := 'l', 'w';
      side := Left;
    } else if connector.portsRight {
      loopSide, loopDir := 'r', 'e';
      side := Right;
    } else {
      return Failure(NoSideForLoops);
    }
    var loopEdges: seq<(string, string)> := [];
    for k := 0 to |connector.loops|
      invariant |loopEdges| == k
      invariant forall j :: 0 <= j < k ==>
        loopEdges[j] == (Render(LoopEnd(connector.designator, connector.loops[j].0, side)),
                         Render(LoopEnd(connector.designator, connector.loops[j].1, side)))
    {
      var loop := connector.loops[k];
      var head := connector.designator + ":p" + NatToString(loop.0) + [loopSide] + ":" + [loopDir];
      var tail := connector.designator + ":p" + NatToString(loop.1) + [loopSide] + ":" + [loopDir];
      RenderPieces(LoopEnd(connector.designator, loop.0, side));
      RenderPieces(LoopEnd(connector.designator, loop.1, side));
      assert ":" + [loopDir] == [':', loopDir];
      assert head == Render(LoopEnd(connector.designator, loop.0, side));
      assert tail == Render(LoopEnd(connector.designator, loop.1, side));
      loopEdges := loopEdges + [(head, tail)];
    }
    return Success(loopEdges);
  }

  /** The colour and the four endpoints of a wire edge.  `left1`/`left2`
      run from the left pin to the wire, `right1`/`right2` from the wire to
      the right pin; each pair is absent when that end is open. */
  datatype WireEdge = WireEdge(
    color: string,
    left1: Option<string>,
    left2: Option<string>,
    right1: Option<string>,
    right2: Option<string>)

  predicate Missing(connectors: map<string, Connector>, pin: Option<PinRef>)
  {
    pin.Some? && pin.value.parent !in connectors
  }

  /** Endpoint at a connector pin on `side`: a simple connector is entered
      at the node itself, any other at the pin's port, numbered from 1. */
  function ConnectorEnd(connectors: map<string, Connector>, pin: PinRef, side: Side): Address
    requires pin.parent in connectors
  {
    Address(pin.parent,
            if connectors[pin.parent].style == "simple" then NoPort else PinPort(pin.index + 1, side),
            SideCompass(side))
  }

  /** Endpoint at a cable wire's port, numbered from 1, on the given face. */
  function WireEnd(via: WireRef, compass: Compass): Address
  {
    Address(via.parent, WirePort(via.index + 1), compass)
  }

  /** Builds the wire edge of `connection`; a pin naming a connector that is
      not in `connectors` is a missing key (the left end is looked up first). */
  function EdgeWire(connectors: map<string, Connector>, connection: Connection): (r: Result<WireEdge, GraphError>)
    ensures r.Failure? <==> Missing(connectors, connection.from) || Missing(connectors, connection.to)
    ensures r.Failure? ==>
      r.error == MissingConnector(if Missing(connectors, connection.from) then connection.from.value.parent
                                  else connection.to.value.parent)
    ensures r.Success? ==>
      && r.value.left1 == (if connection.from.None? then None
                           else Some(Render(ConnectorEnd(connectors, connection.from.value, Right))))
      && r.value.left2 == (if connection.from.None? then None
                           else Some(Render(WireEnd(connection.via, West))))
      && r.value.right1 == (if connection.to.None? then None
                            else Some(Render(WireEnd(connection.via, East))))
      && r.value.right2 == (if connection.to.None? then None
                            else Some(Render(ConnectorEnd(connectors, connection.to.value, Left))))
  {
    var via := connection.via;
    var color := if via.color.Some? then "#000000:" + via.color.value + ":#000000" else "#000000";
    if Missing(connectors, connection.from) then
      Failure(MissingConnector(connection.from.value.parent))
    else if Missing(connectors, connection.to) then
      Failure(MissingConnector(connection.to.value.parent))
    else
      var left :=
        if connection.from.Some? then
          var from := connection.from.value;
          var fromPortStr :=
            if connectors[from.parent].style != "simple" then ":p" + NatToString(from.index + 1) + "r" else "";
          RenderPieces(ConnectorEnd(connectors, from, Right));
          RenderPieces(WireEnd(via, West));
          (Some(from.parent + fromPortStr + ":e"), Some(via.parent + ":w" + NatToString(via.index + 1) + ":w"))
        else
          (None, None);
      var right :=
        if connection.to.Some? then
          var to := connection.to.value;
          var toPortStr :=
            if connectors[to.parent].style != "simple" then ":p" + NatToString(to.index + 1) + "l" else "";
          RenderPieces(WireEnd(via, East));
          RenderPieces(ConnectorEnd(connectors, to, Left));
          (Some(via.parent + ":w" + NatToString(via.index + 1) + ":e"), Some(to.parent + toPortStr + ":w"))
        else
          (None, None);
      Success(WireEdge(color, left.0, left.1, right.0, right.1))
  }

  /** A colour list framed by one black band on each side. */
  lemma FramedColors(padded: string)
    ensures Split("#000000:" + padded + ":#000000", ':') == [Black] + Split(padded, ':') + [Black]
  {
    SplitNoSep(Black, ':');
    assert "#000000:" + padded + ":#000000" == Black + [':'] + (padded + [':'] + Black);
    SplitJoin(Black, padded + [':'] + Black, ':');
    SplitJoin(padded, Black, ':');
  }

  /** Read as a Graphviz colour list, a wire edge is the wire's own colours
      framed by one black band on each side; a shield edge is plain black. */
  lemma EdgeWireColor(connectors: map<string, Connector>, connection: Connection)
    requires EdgeWire(connectors, connection).Success?
    ensures var color := EdgeWire(connectors, connection).value.color;
      Split(color, ':') ==
        if connection.via.color.Some? then [Black] + Split(connection.via.color.value, ':') + [Black]
        else [Black]
  {
    if connection.via.color.Some? {
      FramedColors(connection.via.color.value);
    } else {
      SplitNoSep(Black, ':');
    }
  }

  predicate NoColon(s: string) { ':' !in s }

  /** Every designator a connection names is free of ':'. */
  predicate PlainNames(connection: Connection)
  {
    && NoColon(connection.via.parent)
    && (connection.from.Some? ==> NoColon(connection.from.value.parent))
    && (connection.to.Some? ==> NoColon(connection.to.value.parent))
  }

  /** A code that is the text of an address whose node has no ':' reads
      back as that address. */
  lemma ParseCode(code: Option<string>, a: Address)
    requires code == Some(Render(a)) && NoColon(a.node)
    ensures Parse(code.value) == Some(a)
  {
    ParseRender(a);
  }

  /** The first left code names the left pin's right-hand port (pin index
      + 1) facing east, or the connector alone when it is simple. */
  lemma EdgeWireLeftPin(connectors: map<string, Connector>, connection: Connection)
    requires EdgeWire(connectors, connection).Success? && connection.from.Some?
    requires NoColon(connection.from.value.parent)
    ensures var from := connection.from.value;
      Parse(EdgeWire(connectors, connection).value.left1.value) == Some(Address(from.parent,
        if connectors[from.parent].style == "simple" then NoPort else PinPort(from.index + 1, Right), East))
  {
    var from := connection.from.value;
    var a := Address(from.parent,
      if connectors[from.parent].style == "simple" then NoPort else PinPort(from.index + 1, Right), East);
    assert ConnectorEnd(connectors, from, Right) == a;
    ParseCode(EdgeWire(connectors, connection).value.left1, a);
  }

  /** The second left code names the wire's port (wire index + 1) facing west. */
  lemma EdgeWireLeftWire(connectors: map<string, Connector>, connection: Connection)
    requires EdgeWire(connectors, connection).Success? && connection.from.Some?
    requires NoColon(connection.via.parent)
    ensures Parse(EdgeWire(connectors, connection).value.left2.value) ==
      Some(Address(connection.via.parent, WirePort(connection.via.index + 1), West))
  {
    ParseCode(EdgeWire(connectors, connection).value.left2, WireEnd(connection.via, West));
  }

  /** The first right code names the wire's port (wire index + 1) facing east. */
  lemma EdgeWireRightWire(connectors: map<string, Connector>, connection: Connection)
    requires EdgeWire(connectors, connection).Success? && connection.to.Some?
    requires NoColon(connection.via.parent)
    ensures Parse(EdgeWire(connectors, connection).value.right1.value) ==
      Some(Address(connection.via.parent, WirePort(connection.via.index + 1), East))
  {
    ParseCode(EdgeWire(connectors, connection).value.right1, WireEnd(connection.via, East));
  }

  /** The second right code names the right pin's left-hand port (pin index
      + 1) facing west, or the connector alone when it is simple. */
  lemma EdgeWireRightPin(connectors: map<string, Connector>, connection: Connection)
    requires EdgeWire(connectors, connection).Success? && connection.to.Some?
    requires NoColon(connection.to.value.parent)
    ensures var to := connection.to.value;
      Parse(EdgeWire(connectors, connection).value.right2.value) == Some(Address(to.parent,
        if connectors[to.parent].style == "simple" then NoPort else PinPort(to.index + 1, Left), West))
  {
    var to := connection.to.value;
    var a := Address(to.parent,
      if connectors[to.parent].style == "simple" then NoPort else PinPort(to.index + 1, Left), West);
    assert ConnectorEnd(connectors, to, Left) == a;
    ParseCode(EdgeWire(connectors, connection).value.right2, a);
  }

  /** Read back as DOT endpoints, the two codes on the left of a wire edge
      name the left pin's right-hand port (pin index + 1) facing east, then
      the wire's port (wire index + 1) facing west; a simple connector is
      named without a port.  An open left end leaves both codes absent,
      whatever the right end is. */
  lemma EdgeWireLeftEndpoints(connectors: map<string, Connector>, connection: Connection)
    requires EdgeWire(connectors, connection).Success?
    requires PlainNames(connection)
    ensures var e := EdgeWire(connectors, connection).value;
      && (e.left1.Some? <==> connection.from.Some?)
      && (e.left2.Some? <==> connection.from.Some?)
      && (connection.from.Some? ==>
            var from := connection.from.value;
            && Parse(e.left1.value) == Some(Address(from.parent,
                 if connectors[from.parent].style == "simple" then NoPort else PinPort(from.index + 1, Right), East))
            && Parse(e.left2.value) == Some(Address(connection.via.parent, WirePort(connection.via.index + 1), West)))
  {
    if connection.from.Some? {
      EdgeWireLeftPin(connectors, connection);
      EdgeWireLeftWire(connectors, connection);
    }
  }

  /** Read back as DOT endpoints, the two codes on the right of a wire edge
      name the wire's port (wire index + 1) facing east, then the right
      pin's left-hand port (pin index + 1) facing west; a simple connector
      is named without a port.  An open right end leaves both codes absent,
      whatever the left end is. */
  lemma EdgeWireRightEndpoints(connectors: map<string, Connector>, connection: Connection)
    requires EdgeWire(connectors, connection).Success?
    requires PlainNames(connection)
    ensures var e := EdgeWire(connectors, connection).value;
      && (e.right1.Some? <==> connection.to.Some?)
      && (e.right2.Some? <==> connection.to.Some?)
      && (connection.to.Some? ==>
            var to := connection.to.value;
            && Parse(e.right1.value) == Some(Address(connection.via.parent, WirePort(connection.via.index + 1), East))
            && Parse(e.right2.value) == Some(Address(to.parent,
                 if connectors[to.parent].style == "simple" then NoPort else PinPort(to.index + 1, Left), West)))
  {
    if connection.to.Some? {
      EdgeWireRightWire(connectors, connection);
      EdgeWireRightPin(connectors, connection);
    }
  }

  /** The left codes depend only on the left pin and the wire, the right
      codes only on the wire and the right pin. */
  lemma EdgeWireSidesIndependent(connectors: map<string, Connector>, c1: Connection, c2: Connection)
    requires EdgeWire(connectors, c1).Success? && EdgeWire(connectors, c2).Success?
    requires c1.via == c2.via
    ensures c1.from == c2.from ==>
      EdgeWire(connectors, c1).value.left1 == EdgeWire(connectors, c2).value.left1 &&
      EdgeWire(connectors, c1).value.left2 == EdgeWire(connectors, c2).value.left2
    ensures c1.to == c2.to ==>
      EdgeWire(connectors, c1).value.right1 == EdgeWire(connectors, c2).value.right1 &&
      EdgeWire(connectors, c1).value.right2 == EdgeWire(connectors, c2).value.right2
  {
  }

  datatype ArrowDirection = NoDirection | Forward | Back | Both

  datatype ArrowWeight = Single | Double

  datatype Arrow = Arrow(direction: ArrowDirection, weight: ArrowWeight)

  /** Direction of an arrow marker such as `<==>`, `<--`, `==>` or `--`:
      an opening '<' points back, a closing '>' points forward. */
  function ParseArrow(inp: string): (d: ArrowDirection)
    requires |inp| > 0
    ensures d == Both <==> inp[0] == '<' && inp[|inp| - 1] == '>'
    ensures d == Back <==> inp[0] == '<' && inp[|inp| - 1] != '>'
    ensures d == Forward <==> inp[0] != '<' && inp[|inp| - 1] == '>'
    ensures d == NoDirection <==> inp[0] != '<' && inp[|inp| - 1] != '>'
  {
    if inp[0] == '<' && inp[|inp| - 1] == '>' then Both
    else if inp[0] == '<' then Back
    else if inp[|inp| - 1] == '>' then Forward
    else NoDirection
  }

  /** The marker for direction `d` around a shaft such as `==` or `--`. */
  function ArrowMarker(d: ArrowDirection, shaft: string): string
  {
    match d
    case NoDirection => shaft
    case Forward => shaft + ">"
    case Back => "<" + shaft
    case Both => "<" + shaft + ">"
  }

  /** Parsing a marker recovers the direction it was written with, for any
      shaft that neither starts with '<' nor ends with '>'. */
  lemma ParseArrowMarker(d: ArrowDirection, shaft: string)
    requires |shaft| > 0 && shaft[0] != '<' && shaft[|shaft| - 1] != '>'
    ensures |ArrowMarker(d, shaft)| > 0
    ensures ParseArrow(ArrowMarker(d, shaft)) == d
  {
  }

  /** Graphviz's `dir` attribute value: the direction's name in lower case. */
  function DirectionName(d: ArrowDirection): string
  {
    match d
    case NoDirection => "none"
    case Forward => "forward"
    case Back => "back"
    case Both => "both"
  }

  /** A mate joins two pins or two whole connectors without a cable; any
      other kind of mate is unknown to the edge builder. */
  datatype Mate =
    | MatePin(from: PinRef, to: PinRef, arrow: Arrow)
    | MateComponent(fromDesignator: string, toDesignator: string, arrow: Arrow)
    | OtherMate(arrow: Arrow)

  datatype MateEdge = MateEdge(color: string, dir: string, codeFrom: string, codeTo: string)

  /** Number of black bands drawn for an arrow weight. */
  function WeightBands(w: ArrowWeight): nat
  {
    match w
    case Single => 1
    case Double => 2
  }

  /** The codes of a pin mate: the first pin's right-hand port facing
      east, the second pin's left-hand port facing west (pins numbered from 1). */
  function PinMateCodes(from: PinRef, to: PinRef): (codes: (string, string))
    ensures codes.0 == Render(Address(from.parent, PinPort(from.index + 1, Right), East))
    ensures codes.1 == Render(Address(to.parent, PinPort(to.index + 1, Left), West))
  {
    var fromPortStr := ":p" + NatToString(from.index + 1) + "r";
    var toPortStr := ":p" + NatToString(to.index + 1) + "l";
    RenderPieces(Address(from.parent, PinPort(from.index + 1, Right), East));
    RenderPieces(Address(to.parent, PinPort(to.index + 1, Left), West));
    (from.parent + fromPortStr + ":e", to.parent + toPortStr + ":w")
  }

  /** The codes of a connector mate: the two connectors without a port. */
  function ComponentMateCodes(fromDesignator: string, toDesignator: string): (codes: (string, string))
    ensures codes.0 == Render(Address(fromDesignator, NoPort, East))
    ensures codes.1 == Render(Address(toDesignator, NoPort, West))
  {
    RenderPieces(Address(fromDesignator, NoPort, East));
    RenderPieces(Address(toDesignator, NoPort, West));
    (fromDesignator + ":e", toDesignator + ":w")
  }

  /** Builds the mate edge: from the right-hand side of the first pin or
      connector, facing east, to the left-hand side of the second, facing
      west. */
  function EdgeMate(mate: Mate): (r: Result<MateEdge, GraphError>)
    ensures r.Failure? <==> mate.OtherMate?
    ensures r.Failure? ==> r.error == UnknownMate
    ensures r.Success? ==> r.value.dir == DirectionName(mate.arrow.direction)
    ensures mate.MatePin? ==>
      && r.value.codeFrom == Render(Address(mate.from.parent, PinPort(mate.from.index + 1, Right), East))
      && r.value.codeTo == Render(Address(mate.to.parent, PinPort(mate.to.index + 1, Left), West))
    ensures mate.MateComponent? ==>
      && r.value.codeFrom == Render(Address(mate.fromDesignator, NoPort, East))
      && r.value.codeTo == Render(Address(mate.toDesignator, NoPort, West))
  {
    var color := match mate.arrow.weight
      case Single => "#000000"
      case Double => "#000000:#000000";
    var dir := DirectionName(mate.arrow.direction);
    match mate
    case MatePin(from, to, _) =>
      var codes := PinMateCodes(from, to);
      Success(MateEdge(color, dir, codes.0, codes.1))
    case MateComponent(fromDesignator, toDesignator, _) =>
      var codes := ComponentMateCodes(fromDesignator, toDesignator);
      Success(MateEdge(color, dir, codes.0, codes.1))
    case OtherMate(_) =>
      Failure(UnknownMate)
  }

  /** One or two bands of a colour without ':' read back as that many bands. */
  lemma Bands(b: string)
    requires ':' !in b
    ensures Split(b, ':') == seq(1, _ => b)
    ensures Split(b + [':'] + b, ':') == seq(2, _ => b)
  {
    SplitNoSep(b, ':');
    SplitJoin(b, b, ':');
    assert seq(1, _ => b) == [b];
    assert seq(2, _ => b) == [b, b];
  }

  /** Read as a colour list, a mate edge is one black band per unit of
      weight. */
  lemma EdgeMateColor(mate: Mate)
    requires !mate.OtherMate?
    ensures Split(EdgeMate(mate).value.color, ':') == seq(WeightBands(mate.arrow.weight), _ => Black)
  {
    assert ':' !in Black;
    Bands(Black);
    assert "#000000:#000000" == Black + [':'] + Black;
  }

  /** Read back as DOT endpoints, the codes of a mate edge name the two
      mated pins (index + 1, right-hand port then left-hand port) or the two
      mated connectors. */
  lemma EdgeMateEndpoints(mate: Mate)
    requires !mate.OtherMate?
    ensures var e := EdgeMate(mate).value;
      && (mate.MatePin? && NoColon(mate.from.parent) && NoColon(mate.to.parent) ==>
            && Parse(e.codeFrom) == Some(Address(mate.from.parent, PinPort(mate.from.index + 1, Right), East))
            && Parse(e.codeTo) == Some(Address(mate.to.parent, PinPort(mate.to.index + 1, Left), West)))
      && (mate.MateComponent? && NoColon(mate.fromDesignator) && NoColon(mate.toDesignator) ==>
            && Parse(e.codeFrom) == Some(Address(mate.fromDesignator, NoPort, East))
            && Parse(e.codeTo) == Some(Address(mate.toDesignator, NoPort, West)))
  {
    var e := EdgeMate(mate).value;
    if mate.MatePin? && NoColon(mate.from.parent) && NoColon(mate.to.parent) {
      var a := Address(mate.from.parent, PinPort(mate.from.index + 1, Right), East);
      var b := Address(mate.to.parent, PinPort(mate.to.index + 1, Left), West);
      assert Parse(e.codeFrom) == Some(a) by {
        ParseRender(a);
      }
      assert Parse(e.codeTo) == Some(b) by {
        ParseRender(b);
      }
    }
    if mate.MateComponent? && NoColon(mate.fromDesignator) && NoColon(mate.toDesignator) {
      var a := Address(mate.fromDesignator, NoPort, East);
      var b := Address(mate.toDesignator, NoPort, West);
      assert Parse(e.codeFrom) == Some(a) by {
        ParseRender(a);
      }
      assert Parse(e.codeTo) == Some(b) by {
        ParseRender(b);
      }
    }
  }
}
