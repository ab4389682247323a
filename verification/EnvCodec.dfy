/** The environment strings through which the operator tells the init container
    of a server's ports and build metadata: the printer and the parser. */
module EnvCodec {
  import opened Options
  import opened GoStrings
  import opened PodPorts

  datatype GamePort = GamePort(name: string, serverListeningPort: int, clientConnectionPort: int)
  datatype MetadataItem = MetadataItem(key: string, value: string)

  datatype PortsResult =
    | ParsedPorts(ports: map<string, string>, configuration: seq<GamePort>)
    | NotANumber
    | PortsPanic

  datatype MetadataResult = ParsedMetadata(metadata: map<string, string>) | MetadataPanic

  predicate Free(s: string) {
    ',' !in s && '?' !in s
  }

  // The printer

  function PortPiece(port: ContainerPort): string {
    port.name + "," + Itoa(port.containerPort) + "," + Itoa(port.hostPort)
  }

  function Pieces(ports: seq<ContainerPort>): seq<string> {
    if ports == [] then []
    else
      Pieces(ports[..|ports| - 1])
      + if ports[|ports| - 1].hostPort > 0 then [PortPiece(ports[|ports| - 1])] else []
  }

  function MetadataPieces(items: seq<MetadataItem>): seq<string> {
    if items == [] then []
    else MetadataPieces(items[..|items| - 1]) + [items[|items| - 1].key + "," + items[|items| - 1].value]
  }

  function PrintedPorts(containers: seq<Container>): string {
    TrimSuffix(Terminated(Pieces(AllPorts(containers)), '?'), '?')
  }

  function PrintedMetadata(items: seq<MetadataItem>): string {
    TrimSuffix(Terminated(MetadataPieces(items), '?'), '?')
  }

  lemma TerminatedGrows(pieces: seq<string>, piece: string)
    ensures Terminated(pieces + [piece], '?') == Terminated(pieces, '?') + piece + "?"
  {
    assert (pieces + [piece])[..|pieces|] == pieces;
  }

  lemma PiecesLast(init: seq<ContainerPort>, last: ContainerPort)
    ensures Pieces(init + [last]) == Pieces(init) + if last.hostPort > 0 then [PortPiece(last)] else []
  {
    assert (init + [last])[..|init|] == init;
  }

  lemma PiecesGrow(before: seq<ContainerPort>, more: seq<ContainerPort>, i: nat)
    requires i < |more|
    ensures Terminated(Pieces(before + more[..i + 1]), '?')
         == Terminated(Pieces(before + more[..i]), '?') + if more[i].hostPort > 0 then PortPiece(more[i]) + "?" else ""
  {
    hide Pieces, Terminated, PortPiece;
    assert before + more[..i + 1] == before + more[..i] + [more[i]];
    PiecesLast(before + more[..i], more[i]);
    var printed := Terminated(Pieces(before + more[..i]), '?');
    if more[i].hostPort > 0 {
      TerminatedGrows(Pieces(before + more[..i]), PortPiece(more[i]));
      assert printed + PortPiece(more[i]) + "?" == printed + (PortPiece(more[i]) + "?");
    } else {
      assert Pieces(before + more[..i]) + [] == Pieces(before + more[..i]) && printed + "" == printed;
    }
  }

  method PrintContainer(ghost before: seq<ContainerPort>, container: Container, b: string) returns (r: string)
    requires b == Terminated(Pieces(before), '?')
    ensures r == Terminated(Pieces(before + container.ports), '?')
  {
    hide Terminated, Pieces;
    r := b;
    assert before + container.ports[..0] == before;
    for i := 0 to |container.ports|
      invariant r == Terminated(Pieces(before + container.ports[..i]), '?')
    {
      var port := container.ports[i];
      PiecesGrow(before, container.ports, i);
      if port.hostPort > 0 {
        var containerPort, hostPort := Itoa(port.containerPort), Itoa(port.hostPort);
        r := r + (port.name + "," + containerPort + "," + hostPort + "?");
      }
    }
    assert container.ports[..|container.ports|] == container.ports;
  }

  method PrintPorts(containers: seq<Container>) returns (r: string)
    ensures r == PrintedPorts(containers)
  {
    var b := "";
    for c := 0 to |containers|
      invariant b == Terminated(Pieces(AllPorts(containers[..c])), '?')
    {
      AllPortsGrow(containers, c);
      b := PrintContainer(AllPorts(containers[..c]), containers[c], b);
    }
    assert containers[..|containers|] == containers;
    r := TrimSuffix(b, '?');
  }

  method PrintMetadata(items: seq<MetadataItem>) returns (r: string)
    ensures r == PrintedMetadata(items)
  {
    var buildMetadata := "";
    for i := 0 to |items|
      invariant buildMetadata == Terminated(MetadataPieces(items[..i]), '?')
    {
      assert items[..i + 1][..i] == items[..i];
      TerminatedGrows(MetadataPieces(items[..i]), items[i].key + "," + items[i].value);
      buildMetadata := buildMetadata + (items[i].key + "," + items[i].value + "?");
    }
    assert items[..|items|] == items;
    r := TrimSuffix(buildMetadata, '?');
  }

  // The parser

  // What one more piece does; too few fields are read out of range.
  function ReadPort(so: PortsResult, piece: string): PortsResult {
    if !so.ParsedPorts? || piece == "" then so
    else
      var fields := Split(piece, ',');
      if |fields| < 3 then PortsPanic
      else
        match (Atoi(fields[1]), Atoi(fields[2]))
        case (Some(containerPort), Some(hostPort)) =>
          ParsedPorts(so.ports[fields[0] := Itoa(containerPort)],
                      so.configuration + [GamePort(fields[0], containerPort, hostPort)])
        case _ => NotANumber
  }

  function ReadPorts(pieces: seq<string>): PortsResult {
    if pieces == [] then ParsedPorts(map[], [])
    else ReadPort(ReadPorts(pieces[..|pieces| - 1]), pieces[|pieces| - 1])
  }

  function ReadItem(so: MetadataResult, piece: string): MetadataResult {
    if !so.ParsedMetadata? || piece == "" then so
    else
      var fields := Split(piece, ',');
      if |fields| < 2 then MetadataPanic else ParsedMetadata(so.metadata[fields[0] := fields[1]])
  }

  function ReadMetadata(pieces: seq<string>): MetadataResult {
    if pieces == [] then ParsedMetadata(map[])
    else ReadItem(ReadMetadata(pieces[..|pieces| - 1]), pieces[|pieces| - 1])
  }

  lemma {:induction false} ReadPortsStops(pieces: seq<string>, i: nat)
    requires i <= |pieces| && !ReadPorts(pieces[..i]).ParsedPorts?
    ensures ReadPorts(pieces) == ReadPorts(pieces[..i])
    decreases |pieces| - i
  {
    if i == |pieces| {
      assert pieces[..i] == pieces;
    } else {
      assert pieces[..i + 1][..i] == pieces[..i];
      ReadPortsStops(pieces, i + 1);
    }
  }

  lemma {:induction false} ReadMetadataStops(pieces: seq<string>, i: nat)
    requires i <= |pieces| && !ReadMetadata(pieces[..i]).ParsedMetadata?
    ensures ReadMetadata(pieces) == ReadMetadata(pieces[..i])
    decreases |pieces| - i
  {
    if i == |pieces| {
      assert pieces[..i] == pieces;
    } else {
      assert pieces[..i + 1][..i] == pieces[..i];
      ReadMetadataStops(pieces, i + 1);
    }
  }

  /** The error of a bad container port is worded with the third field, so that
      two fields are too few even there. */
  method ParsePorts(gamePortsString: string) returns (r: PortsResult)
    ensures r == ReadPorts(Split(gamePortsString, '?'))
  {
    var s := Split(gamePortsString, '?');
    var configuration: seq<GamePort>, gamePorts: map<string, string> := [], map[];
    for i := 0 to |s|
      invariant ReadPorts(s[..i]) == ParsedPorts(gamePorts, configuration)
    {
      assert s[..i + 1][..i] == s[..i];
      if s[i] == "" {
        continue;
      }
      var fields := Split(s[i], ',');
      if |fields| < 3 {
        ReadPortsStops(s, i + 1);
        return PortsPanic;
      }
      var containerPort := Atoi(fields[1]);
      if containerPort.None? {
        ReadPortsStops(s, i + 1);
        return NotANumber;
      }
      var hostPort := Atoi(fields[2]);
      if hostPort.None? {
        ReadPortsStops(s, i + 1);
        return NotANumber;
      }
      configuration := configuration + [GamePort(fields[0], containerPort.value, hostPort.value)];
      gamePorts := gamePorts[fields[0] := Itoa(containerPort.value)];
    }
    assert s[..|s|] == s;
    r := ParsedPorts(gamePorts, configuration);
  }

  method ParseBuildMetadata(envMetadata: string) returns (r: MetadataResult)
    ensures r == ReadMetadata(Split(envMetadata, '?'))
  {
    var metadata: map<string, string> := map[];
    if envMetadata != "" {
      var s := Split(envMetadata, '?');
      for i := 0 to |s|
        invariant ReadMetadata(s[..i]) == ParsedMetadata(metadata)
      {
        assert s[..i + 1][..i] == s[..i];
        if s[i] == "" {
          continue;
        }
        var fields := Split(s[i], ',');
        if |fields| < 2 {
          ReadMetadataStops(s, i + 1);
          return MetadataPanic;
        }
        metadata := metadata[fields[0] := fields[1]];
      }
      assert s[..|s|] == s;
    }
    r := ParsedMetadata(metadata);
  }

  // Printing and parsing

  function Exposed(ports: seq<ContainerPort>): seq<GamePort> {
    if ports == [] then []
    else
      var last := ports[|ports| - 1];
      Exposed(ports[..|ports| - 1])
      + if last.hostPort > 0 then [GamePort(last.name, last.containerPort, last.hostPort)] else []
  }

  // The last of several values of a key counts.
  function LastWins(items: seq<MetadataItem>): map<string, string> {
    if items == [] then map[]
    else LastWins(items[..|items| - 1])[items[|items| - 1].key := items[|items| - 1].value]
  }

  function ListeningPorts(ports: seq<GamePort>): map<string, string> {
    if ports == [] then map[]
    else ListeningPorts(ports[..|ports| - 1])[ports[|ports| - 1].name := Itoa(ports[|ports| - 1].serverListeningPort)]
  }

  predicate Int32(n: int) {
    -0x8000_0000 <= n < 0x8000_0000
  }

  predicate InInt32(ports: seq<ContainerPort>) {
    forall p :: p in ports ==> Int32(p.containerPort) && Int32(p.hostPort)
  }

  predicate NamesFree(ports: seq<ContainerPort>) {
    forall p :: p in ports && p.hostPort > 0 ==> Free(p.name)
  }

  lemma SplitTwo(a: string, b: string)
    requires ',' !in a && ',' !in b
    ensures Split(a + "," + b, ',') == [a, b]
  {
    SplitAt(a, ',', b);
    SplitFree(a, ',');
    SplitFree(b, ',');
  }

  lemma SplitThree(a: string, b: string, c: string)
    requires ',' !in a && ',' !in b && ',' !in c
    ensures Split(a + "," + b + "," + c, ',') == [a, b, c]
  {
    SplitAt(a, ',', b + "," + c);
    SplitAt(b, ',', c);
    SplitFree(a, ',');
    SplitFree(b, ',');
    SplitFree(c, ',');
    assert a + "," + b + "," + c == a + [','] + (b + "," + c);
    assert b + "," + c == b + [','] + c;
  }

  // What follows the fields that are read, if anything.
  predicate IsTail(more: string) {
    more == "" || more[0] == ','
  }

  lemma SplitTail(a: string, more: string)
    requires ',' !in a && IsTail(more)
    ensures Split(a + more, ',')[0] == a
    ensures more != "" ==> Split(a + more, ',') == [a] + Split(more[1..], ',')
    ensures more == "" ==> Split(a + more, ',') == [a]
  {
    SplitFree(a, ',');
    if more == "" {
      assert a + more == a;
    } else {
      assert a + more == a + [','] + more[1..];
      SplitAt(a, ',', more[1..]);
    }
  }

  lemma FieldsOfPiece(a: string, b: string, c: string, more: string)
    requires ',' !in a && ',' !in b && ',' !in c && IsTail(more)
    ensures var fields := Split(a + "," + (b + "," + (c + more)), ',');
            |fields| >= 3 && fields[0] == a && fields[1] == b && fields[2] == c
  {
    hide Split;
    var last := c + more;
    var rest := b + "," + last;
    SplitTail(c, more);
    SplitTail(b, "," + last);
    SplitTail(a, "," + rest);
    assert ("," + last)[1..] == last && b + ("," + last) == rest;
    assert ("," + rest)[1..] == rest && a + ("," + rest) == a + "," + rest;
  }

  /** A piece needs three fields, of which the last two are numbers; more fields
      are ignored, so a comma in the name moves what is read. */
  lemma PortPieceRead(so: PortsResult, name: string, number: string, third: string, more: string)
    requires so.ParsedPorts? && ',' !in name && ',' !in number && ',' !in third && IsTail(more)
    ensures name != "" ==> ReadPort(so, name) == PortsPanic
    ensures ReadPort(so, name + "," + number) == PortsPanic
    ensures var r := ReadPort(so, name + "," + (number + "," + (third + more)));
            && (r == NotANumber <==> Atoi(number) == None || Atoi(third) == None)
            && (forall n, m :: Atoi(number) == Some(n) && Atoi(third) == Some(m) ==>
                  r == ParsedPorts(so.ports[name := Itoa(n)], so.configuration + [GamePort(name, n, m)]))
  {
    hide Split, Atoi, Itoa;
    SplitFree(name, ',');
    SplitTwo(name, number);
    FieldsOfPiece(name, number, third, more);
  }

  /** A piece needs two fields; more are ignored. */
  lemma ItemPieceRead(so: MetadataResult, key: string, value: string, more: string)
    requires so.ParsedMetadata? && ',' !in key && ',' !in value && IsTail(more)
    ensures key != "" ==> ReadItem(so, key) == MetadataPanic
    ensures ReadItem(so, key + "," + (value + more)) == ParsedMetadata(so.metadata[key := value])
  {
    var rest := value + more;
    SplitFree(key, ',');
    SplitTail(value, more);
    SplitTail(key, "," + rest);
    assert ("," + rest)[1..] == rest && key + ("," + rest) == key + "," + rest;
    hide Split;
  }

  lemma ReadPrintedPort(so: PortsResult, port: ContainerPort)
    requires Free(port.name) && Int32(port.containerPort) && Int32(port.hostPort) && so.ParsedPorts?
    ensures '?' !in PortPiece(port)
    ensures ReadPort(so, PortPiece(port)) ==
      ParsedPorts(so.ports[port.name := Itoa(port.containerPort)],
                  so.configuration + [GamePort(port.name, port.containerPort, port.hostPort)])
  {
    AtoiItoa(port.containerPort);
    AtoiItoa(port.hostPort);
    SplitThree(port.name, Itoa(port.containerPort), Itoa(port.hostPort));
  }

  lemma ExposedLast(init: seq<ContainerPort>, last: ContainerPort)
    ensures var exposed := GamePort(last.name, last.containerPort, last.hostPort);
            Exposed(init + [last]) == Exposed(init) + if last.hostPort > 0 then [exposed] else []
  {
    assert (init + [last])[..|init|] == init;
  }

  lemma ListeningPortsLast(ports: seq<GamePort>, last: GamePort)
    ensures ListeningPorts(ports + [last]) == ListeningPorts(ports)[last.name := Itoa(last.serverListeningPort)]
  {
    assert (ports + [last])[..|ports|] == ports;
  }

  // What was printed for some ports reads as these ports.
  ghost predicate ReadBack(ports: seq<ContainerPort>) {
    && (forall p :: p in Pieces(ports) ==> '?' !in p)
    && ReadPorts(Pieces(ports)) == ParsedPorts(ListeningPorts(Exposed(ports)), Exposed(ports))
  }

  lemma ReadBackMore(init: seq<ContainerPort>, last: ContainerPort)
    requires ReadBack(init) && Free(last.name) && Int32(last.containerPort) && Int32(last.hostPort)
    requires last.hostPort > 0
    ensures ReadBack(init + [last])
  {
    PiecesLast(init, last);
    ExposedLast(init, last);
    ReadPrintedPort(ReadPorts(Pieces(init)), last);
    ReadPortsLast(Pieces(init), PortPiece(last));
    ListeningPortsLast(Exposed(init), GamePort(last.name, last.containerPort, last.hostPort));
    hide Pieces, Exposed, ReadPorts, ReadPort, PortPiece, ListeningPorts, Itoa;
  }

  lemma ReadBackSkipping(init: seq<ContainerPort>, last: ContainerPort)
    requires ReadBack(init) && last.hostPort <= 0
    ensures ReadBack(init + [last])
  {
    PiecesLast(init, last);
    ExposedLast(init, last);
    hide Pieces, Exposed, ReadPorts;
    assert Pieces(init) + [] == Pieces(init) && Exposed(init) + [] == Exposed(init);
  }

  lemma {:induction false} ReadPieces(ports: seq<ContainerPort>)
    requires InInt32(ports) && NamesFree(ports)
    ensures ReadBack(ports)
  {
    if ports != [] {
      hide ReadBack;
      var init, last := ports[..|ports| - 1], ports[|ports| - 1];
      assert ports == init + [last];
      ReadPieces(init);
      if last.hostPort > 0 {
        ReadBackMore(init, last);
      } else {
        ReadBackSkipping(init, last);
      }
    }
  }

  lemma ReadPortsLast(pieces: seq<string>, piece: string)
    ensures ReadPorts(pieces + [piece]) == ReadPort(ReadPorts(pieces), piece)
  {
    assert (pieces + [piece])[..|pieces|] == pieces;
  }

  lemma ReadMetadataLast(pieces: seq<string>, piece: string)
    ensures ReadMetadata(pieces + [piece]) == ReadItem(ReadMetadata(pieces), piece)
  {
    assert (pieces + [piece])[..|pieces|] == pieces;
  }

  lemma ReadEmptyPiece()
    ensures ReadPorts([""]) == ParsedPorts(map[], [])
    ensures ReadMetadata([""]) == ParsedMetadata(map[])
  {
    assert [""][..0] == [];
  }

  // Whatever was parsed holds no separator.
  lemma {:induction false} ParsedAreFree(pieces: seq<string>)
    requires ReadPorts(pieces).ParsedPorts? && forall p :: p in pieces ==> '?' !in p
    ensures forall p :: p in ReadPorts(pieces).configuration ==> Free(p.name)
  {
    if pieces != [] {
      var init, last := pieces[..|pieces| - 1], pieces[|pieces| - 1];
      assert pieces == init + [last];
      ParsedAreFree(init);
      var fields := Split(last, ',');
      PiecesAreFree(last, ',', fields[0], '?');
    }
  }

  lemma {:induction false} ExposedHas(ports: seq<ContainerPort>, p: ContainerPort)
    requires p in ports && p.hostPort > 0
    ensures GamePort(p.name, p.containerPort, p.hostPort) in Exposed(ports)
  {
    if p != ports[|ports| - 1] {
      ExposedHas(ports[..|ports| - 1], p);
    }
  }

  /** The init container gets back the exposed ports, in order and with their
      numbers, exactly when no exposed port's name has a separator in it. */
  lemma PortsRoundTrip(containers: seq<Container>)
    requires InInt32(AllPorts(containers))
    ensures var ports := AllPorts(containers);
            var r := ReadPorts(Split(PrintedPorts(containers), '?'));
            && (NamesFree(ports) <==> r.ParsedPorts? && r.configuration == Exposed(ports))
            && (NamesFree(ports) ==> r.ports == ListeningPorts(Exposed(ports)))
  {
    var ports := AllPorts(containers);
    var pieces := Split(PrintedPorts(containers), '?');
    var r := ReadPorts(pieces);
    if NamesFree(ports) {
      ReadPieces(ports);
      SplitTerminated(Pieces(ports), '?');
      ReadEmptyPiece();
    }
    if r.ParsedPorts? && r.configuration == Exposed(ports) {
      forall p | p in pieces ensures '?' !in p {
        PiecesAreFree(PrintedPorts(containers), '?', p, '?');
      }
      ParsedAreFree(pieces);
      forall p | p in ports && p.hostPort > 0 ensures Free(p.name) {
        ExposedHas(ports, p);
      }
    }
  }

  predicate ItemsFree(items: seq<MetadataItem>) {
    forall m :: m in items ==> Free(m.key) && Free(m.value)
  }

  lemma {:induction false} ReadItems(items: seq<MetadataItem>)
    requires ItemsFree(items)
    ensures forall p :: p in MetadataPieces(items) ==> '?' !in p
    ensures ReadMetadata(MetadataPieces(items)) == ParsedMetadata(LastWins(items))
  {
    if items != [] {
      var init, last := items[..|items| - 1], items[|items| - 1];
      assert items == init + [last];
      ReadItems(init);
      SplitTwo(last.key, last.value);
      assert MetadataPieces(items)[..|items| - 1] == MetadataPieces(init) by {
        PiecesOfItems(init);
      }
    }
  }

  lemma {:induction false} PiecesOfItems(items: seq<MetadataItem>)
    ensures |MetadataPieces(items)| == |items|
  {
    if items != [] {
      PiecesOfItems(items[..|items| - 1]);
    }
  }

  lemma {:induction false} ParsedItemsAreFree(pieces: seq<string>)
    requires ReadMetadata(pieces).ParsedMetadata? && forall p :: p in pieces ==> '?' !in p
    ensures forall k :: k in ReadMetadata(pieces).metadata ==> Free(k) && Free(ReadMetadata(pieces).metadata[k])
  {
    if pieces != [] {
      var init, last := pieces[..|pieces| - 1], pieces[|pieces| - 1];
      assert pieces == init + [last];
      ParsedItemsAreFree(init);
      var fields := Split(last, ',');
      PiecesAreFree(last, ',', fields[0], '?');
      if |fields| >= 2 {
        PiecesAreFree(last, ',', fields[1], '?');
      }
    }
  }

  predicate DistinctKeys(items: seq<MetadataItem>) {
    forall i, j :: 0 <= i < j < |items| ==> items[i].key != items[j].key
  }

  lemma {:induction false} DistinctKeysAllWin(items: seq<MetadataItem>, i: nat)
    requires DistinctKeys(items) && i < |items|
    ensures items[i].key in LastWins(items) && LastWins(items)[items[i].key] == items[i].value
  {
    if i < |items| - 1 {
      DistinctKeysAllWin(items[..|items| - 1], i);
    }
  }

  /** Metadata without separators comes back with the last value of each key;
      when the keys are distinct, metadata with separators never does. */
  lemma MetadataRoundTrip(items: seq<MetadataItem>)
    ensures var r := ReadMetadata(Split(PrintedMetadata(items), '?'));
            && (ItemsFree(items) ==> r == ParsedMetadata(LastWins(items)))
            && (DistinctKeys(items) && r == ParsedMetadata(LastWins(items)) ==> ItemsFree(items))
  {
    var pieces := Split(PrintedMetadata(items), '?');
    var r := ReadMetadata(pieces);
    if ItemsFree(items) {
      ReadItems(items);
      PiecesOfItems(items);
      SplitTerminated(MetadataPieces(items), '?');
      ReadEmptyPiece();
    }
    if DistinctKeys(items) && r == ParsedMetadata(LastWins(items)) {
      forall p | p in pieces ensures '?' !in p {
        PiecesAreFree(PrintedMetadata(items), '?', p, '?');
      }
      ParsedItemsAreFree(pieces);
      forall m | m in items ensures Free(m.key) && Free(m.value) {
        var i :| 0 <= i < |items| && items[i] == m;
        DistinctKeysAllWin(items, i);
      }
    }
  }

  /** A value that goes on after a question mark, without a comma, stops the
      init container altogether. */
  lemma SeparatorPanics(key: string, a: string, b: string)
    requires Free(key) && Free(a) && Free(b) && b != ""
    ensures ReadMetadata(Split(PrintedMetadata([MetadataItem(key, a + "?" + b)]), '?')) == MetadataPanic
  {
    var first := key + "," + a;
    var piece := key + "," + (a + "?" + b);
    assert piece == first + ['?'] + b;
    PrintedOne(MetadataItem(key, a + "?" + b), piece);
    SplitAt(first, '?', b);
    SplitFree(first, '?');
    SplitFree(b, '?');
    SplitFree(b, ',');
    ReadMetadataLast([first], b);
    assert [first] + [b] == Split(piece, '?');
    ReadOneItem(key, a);
  }

  /** A comma in a value cuts it there. */
  lemma CommaCutsValue(key: string, a: string, b: string)
    requires Free(key) && Free(a) && '?' !in b
    ensures ReadMetadata(Split(PrintedMetadata([MetadataItem(key, a + "," + b)]), '?')) == ParsedMetadata(map[key := a])
  {
    var piece := key + "," + (a + ("," + b));
    assert piece == key + "," + (a + "," + b) by {
      assert a + ("," + b) == a + "," + b;
    }
    PrintedOne(MetadataItem(key, a + "," + b), piece);
    SplitFree(piece, '?');
    ReadMetadataLast([], piece);
    assert [] + [piece] == [piece];
    ItemPieceRead(ParsedMetadata(map[]), key, a, "," + b);
  }

  lemma PrintedOne(item: MetadataItem, piece: string)
    requires piece == item.key + "," + item.value
    ensures PrintedMetadata([item]) == piece
  {
    assert [item][..0] == [];
    TerminatedGrows([], piece);
    assert MetadataPieces([item]) == [] + [piece];
    assert Terminated([], '?') + piece + "?" == piece + "?" && (piece + "?")[..|piece|] == piece;
  }

  lemma ReadOneItem(key: string, value: string)
    requires Free(key) && Free(value)
    ensures ReadMetadata([key + "," + value]).ParsedMetadata?
  {
    SplitTwo(key, value);
    ReadMetadataLast([], key + "," + value);
    assert [] + [key + "," + value] == [key + "," + value];
  }
}
