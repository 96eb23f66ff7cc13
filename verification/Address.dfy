/** Endpoint addresses and what both text codecs take from libraries: the parsers of keys,
    socket addresses and relay URLs.

    A parsed socket address or URL is represented by the text its own side prints for it. */
module Address {
  import opened Common
  import opened OpTypes
  import opened Text
  import opened Numbers

  datatype Transport = Relay(url: string) | Ip(sock: string) | Custom(num: nat, data: seq<byte>)

  /** `iroh::EndpointAddr`: an ordered set of transport addresses. */
  datatype RustAddr = RustAddr(id: seq<byte>, addrs: set<Transport>)

  /** The Go `EndpointAddr`; an empty relay means none, and `extra` holds whole lines. */
  datatype GoAddr = GoAddr(id: seq<byte>, relay: string, direct: seq<string>, extra: seq<string>)

  datatype Codec = Codec(
    id: string -> Option<seq<byte>>,               // the endpoint id parser both sides call
    ip: string -> Option<string>,                  // SocketAddr::from_str, then to_string
    goIp: string -> Option<string>,                // netip.ParseAddrPort, then String
    url: string -> Option<string>,                 // RelayUrl::from_str, then as_str
    order: set<Transport> -> seq<Transport>)       // the iteration order of the address set

  /** Printing is a right inverse of parsing, and prints one clean line. */
  ghost predicate PrintsBack(f: string -> Option<string>) {
    forall t :: f(t).Some? ==> f(f(t).value) == f(t) && OneLine(f(t).value)
  }

  /** The same for a parser that may carry a line feed through, as an address zone does in Go;
      decodeAddr only ever hands it texts without one. */
  ghost predicate PrintsLinesBack(f: string -> Option<string>) {
    forall t :: '\n' !in t && f(t).Some? ==> f(f(t).value) == f(t) && OneLine(f(t).value)
  }

  ghost predicate Enumerates(ts: seq<Transport>, addrs: set<Transport>) {
    (forall t :: t in ts <==> t in addrs) && forall i, j :: 0 <= i < j < |ts| ==> ts[i] != ts[j]
  }

  /** What is assumed of the libraries. */
  ghost predicate Lawful(c: Codec) {
    && (forall t :: c.id(t).Some? ==> |c.id(t).value| == 32 && c.id(Hex(c.id(t).value)) == c.id(t))
    && PrintsBack(c.ip) && PrintsLinesBack(c.goIp) && PrintsBack(c.url)
    // Go reads what Rust prints, and prints it so that Rust reads the same address.
    && (forall t :: c.ip(t) == Some(t) ==> c.goIp(t).Some? && c.ip(c.goIp(t).value) == Some(t))
    && (forall a :: Enumerates(c.order(a), a))
  }

  // The assumptions are consistent: this codec, which takes any clean line as an address,
  // meets them.

  ghost function Listed(a: set<Transport>): seq<Transport>
    decreases |a|
  {
    if a == {} then [] else var t :| t in a; [t] + Listed(a - {t})
  }

  lemma {:induction false} ListedEnumerates(a: set<Transport>)
    ensures Enumerates(Listed(a), a)
    decreases |a|
  {
    if a != {} {
      var t :| t in a && Listed(a) == [t] + Listed(a - {t});
      ListedEnumerates(a - {t});
    }
  }

  lemma AssumptionsAreConsistent() returns (c: Codec)
    ensures Lawful(c)
  {
    var word := (t: string) => if OneLine(t) then Some(t) else None;
    var key := (t: string) =>
      if |t| == 64 && Unhex(t).Some? && Hex(Unhex(t).value) == t then Unhex(t) else None;
    c := Codec(key, word, word, word, a => Listed(a));
    forall t | c.id(t).Some? ensures |c.id(t).value| == 32 && c.id(Hex(c.id(t).value)) == c.id(t) {
      HexUnhex(t);
    }
    forall a ensures Enumerates(c.order(a), a) { ListedEnumerates(a); }
  }

  predicate ValidId(c: Codec, id: seq<byte>) {
    |id| == 32 && c.id(Hex(id)) == Some(id)
  }

  // ---- a kind, a space and the rest -----------------------------------------------------

  /** A line `kind rest` is clean when its rest ends cleanly. */
  lemma KindLine(kind: string, rest: string)
    requires OneLine(kind) && ' ' !in kind
    requires rest != "" && !IsSpace(rest[|rest| - 1]) && '\n' !in rest
    ensures OneLine(kind + " " + rest) && Cut(kind + " " + rest, ' ') == Some((kind, rest))
  {
    CutAt(kind, ' ', rest);
    assert kind + " " + rest == kind + [' '] + rest;
  }

  /** What a clean line that has a space in it looks like. */
  lemma CutLine(line: string)
    requires OneLine(line) && Cut(line, ' ').Some?
    ensures var p := Cut(line, ' ').value;
            && line == p.0 + " " + p.1 && ' ' !in p.0
            && p.1 != "" && !IsSpace(p.1[|p.1| - 1]) && '\n' !in p.1
  {
    CutIs(line, ' ');
    var p := Cut(line, ' ').value;
    CutEnds(p.0, p.1);
  }

  lemma CutEnds(a: string, b: string)
    requires OneLine(a + [' '] + b) && ' ' !in a
    ensures b != "" && !IsSpace(b[|b| - 1]) && '\n' !in b
  {
    var line := a + [' '] + b;
    assert line[|line| - 1] == if b == "" then ' ' else b[|b| - 1];
    assert forall i :: 0 <= i < |b| ==> b[i] == line[|a| + 1 + i];
  }

  /** Cutting at the first space finds a kind exactly where the line begins with it. */
  lemma KindIs(line: string, kind: string)
    requires ' ' !in kind && ' ' in line
    ensures Cut(line, ' ').Some?
    ensures Cut(line, ' ').value.0 == kind <==> kind + " " <= line
    ensures kind + " " <= line ==> Cut(line, ' ').value.1 == line[|kind| + 1..]
  {
    CutIs(line, ' ');
    if kind + " " <= line {
      var rest := line[|kind| + 1..];
      assert line == kind + [' '] + rest;
      CutAt(kind, ' ', rest);
    }
  }
}
