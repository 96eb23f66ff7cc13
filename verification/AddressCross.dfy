/** The two address codecs together: what crosses the boundary comes back. */
module AddressCross {
  import opened Common
  import opened OpTypes
  import opened Text
  import opened Numbers
  import opened Address
  import opened GoAddress
  import opened RustAddress

  /** How a transport's line looks once Go has read and printed it. */
  function GoSpelling(c: Codec, t: Transport): string {
    NormalLine(c, RustLine(t))
  }

  /** Go keeps every transport line readable by Rust, as the same transport. */
  lemma SpellingReadsBack(c: Codec, t: Transport)
    requires Lawful(c) && ValidTransport(c, t) && HasPayload(t)
    ensures OneLine(GoSpelling(c, t)) && ParseLine(c, GoSpelling(c, t)) == Ok(t)
  {
    LineBack(c, t);
    assert ReadsBack(c, t);
    if t.Ip? {
      KindLine("ip", t.sock);
      KindLine("ip", c.goIp(t.sock).value);
      assert "ip" + " " == "ip ";
    } else {
      CutLine(RustLine(t));
    }
  }

  /** Go accepts a line Rust printed, whatever it has read before. */
  lemma GoReadsLine(c: Codec, a: GoAddr, t: Transport)
    requires Lawful(c) && ValidTransport(c, t) && HasPayload(t)
    ensures GoLine(c, a, RustLine(t)).Ok? && Trim(RustLine(t)) == RustLine(t)
  {
    LineBack(c, t);
    assert ReadsBack(c, t);
    CleanTrims(RustLine(t));
    if t.Ip? {
      KindLine("ip", t.sock);
      assert "ip" + " " == "ip ";
    }
  }

  lemma {:induction false} GoReadsLines(c: Codec, a: GoAddr, ts: seq<Transport>)
    requires Lawful(c) && forall i :: 0 <= i < |ts| ==> ValidTransport(c, ts[i]) && HasPayload(ts[i])
    ensures GoTake(c, a, RustLines(ts)).Ok?
    decreases |ts|
  {
    if ts != [] {
      GoReadsLine(c, a, ts[0]);
      GoReadsLines(c, GoLine(c, a, RustLine(ts[0])).value, ts[1..]);
    }
  }

  lemma FirstSpelling(c: Codec, ts: seq<Transport>)
    requires Lawful(c) && ts != [] && ValidTransport(c, ts[0]) && HasPayload(ts[0])
    ensures NormalLines(c, RustLines(ts)) == [GoSpelling(c, ts[0])] + NormalLines(c, RustLines(ts[1..]))
  {
    LineBack(c, ts[0]);
    assert ReadsBack(c, ts[0]);
    CleanTrims(RustLine(ts[0]));
  }

  lemma {:induction false} Spellings(c: Codec, ts: seq<Transport>)
    requires Lawful(c) && forall i :: 0 <= i < |ts| ==> ValidTransport(c, ts[i]) && HasPayload(ts[i])
    ensures var ls := NormalLines(c, RustLines(ts));
            |ls| == |ts| && forall i :: 0 <= i < |ts| ==> ls[i] == GoSpelling(c, ts[i])
  {
    if ts != [] {
      FirstSpelling(c, ts);
      Spellings(c, ts[1..]);
    }
  }

  ghost predicate Spells(c: Codec, from: set<Transport>, line: string) {
    exists t :: t in from && line == GoSpelling(c, t)
  }

  /** Rust reads lines that spell transports, in any order and number, as those transports. */
  lemma {:induction false} RustReadsSpellings(c: Codec, lines: seq<string>, from: set<Transport>)
    requires Lawful(c) && forall t :: t in from ==> ValidTransport(c, t) && HasPayload(t)
    requires forall line :: line in lines ==> Spells(c, from, line)
    ensures var r := RustTake(c, lines);
            && r.Ok?
            && (forall t :: t in r.value ==> t in from && GoSpelling(c, t) in lines)
            && (forall t :: t in from && GoSpelling(c, t) in lines ==> t in r.value)
  {
    if lines != [] {
      assert lines[0] in lines && Spells(c, from, lines[0]);
      var t0 :| t0 in from && lines[0] == GoSpelling(c, t0);
      SpellingReadsBack(c, t0);
      CleanTrims(lines[0]);
      RustReadsSpellings(c, lines[1..], from);
      var rest := RustTake(c, lines[1..]).value;
      assert RustTake(c, lines) == Ok([t0] + rest);
      forall t | t in from && GoSpelling(c, t) in lines ensures t in [t0] + rest {
        SpellingReadsBack(c, t);
        if GoSpelling(c, t) !in lines[1..] { assert GoSpelling(c, t) == lines[0]; }
      }
    }
  }

  lemma SameMultisetSameElements(a: seq<string>, b: seq<string>)
    requires multiset(a) == multiset(b)
    ensures forall x :: x in a <==> x in b
  {
    forall x ensures x in a <==> x in b {
      assert (x in a <==> x in multiset(a)) && (x in b <==> x in multiset(b));
    }
  }

  /** What Go makes of a Rust address without empty payloads: a normal address that encodes
      to a permutation of the same lines. */
  lemma {:induction false} GoReadsRust(c: Codec, r: RustAddr)
    requires Lawful(c) && RustValid(c, r) && AllHavePayload(r)
    ensures var d := GoDecode(c, RustEncode(c, r));
            && d.Ok? && GoNormal(c, d.value) && d.value.id == r.id
            && multiset(GoLines(d.value)) == multiset(NormalLines(c, RustLines(c.order(r.addrs))))
  {
    var ts := c.order(r.addrs);
    OrderedBack(c, r);
    RustAddress.EncodedLines(c, r.id, ts);
    var a0 := GoAddr(r.id, "", [], []);
    assert ([Hex(r.id)] + RustLines(ts))[1..] == RustLines(ts);
    GoReadsLines(c, a0, ts);
    RustLineAt(ts);
    forall i | 0 <= i < |RustLines(ts)| ensures '\n' !in RustLines(ts)[i] { assert ReadsBack(c, ts[i]); }
    TakePermutes(c, a0, RustLines(ts));
    TakeKeepsNormal(c, a0, RustLines(ts));
    IdStays(c, a0, RustLines(ts));
    assert GoLines(a0) == [];
  }

  lemma {:induction false} IdStays(c: Codec, a: GoAddr, lines: seq<string>)
    requires GoTake(c, a, lines).Ok?
    ensures GoTake(c, a, lines).value.id == a.id
    decreases |lines|
  {
    if lines != [] { IdStays(c, GoLine(c, a, Trim(lines[0])).value, lines[1..]); }
  }

  /** Rust, read by Go, printed by Go, read by Rust. */
  function ThereAndBack(c: Codec, r: RustAddr): Result<RustAddr, ErrKind> {
    match GoDecode(c, RustEncode(c, r))
    case Err(e) => Err(e)
    case Ok(g) => RustDecode(c, GoEncode(g))
  }

  /** Cross-language conservation: the same id and the same set of transports, however many
      relays and custom transports there are, exactly when no custom payload is empty. */
  lemma {:induction false} CrossLanguage(c: Codec, r: RustAddr)
    requires Lawful(c) && RustValid(c, r)
    ensures ThereAndBack(c, r) == Ok(r) <==> AllHavePayload(r)
  {
    if AllHavePayload(r) {
      GoReadsRust(c, r);
      var g := GoDecode(c, RustEncode(c, r)).value;
      GoAddress.EncodedLines(c, g);
      assert ([Hex(g.id)] + GoLines(g))[1..] == GoLines(g);
      SameTransports(c, r, GoLines(g));
    } else if ThereAndBack(c, r) == Ok(r) {
      DecodedIsValid(c, GoEncode(GoDecode(c, RustEncode(c, r)).value));
    }
  }

  /** The spelt lines of a valid address are exactly its transports, spelt. */
  lemma SpelledLines(c: Codec, r: RustAddr, line: string)
    requires Lawful(c) && RustValid(c, r) && AllHavePayload(r)
    ensures line in NormalLines(c, RustLines(c.order(r.addrs))) <==> Spells(c, r.addrs, line)
  {
    var ts := c.order(r.addrs);
    var ls := NormalLines(c, RustLines(ts));
    assert Enumerates(ts, r.addrs);
    forall i | 0 <= i < |ts| ensures ValidTransport(c, ts[i]) && HasPayload(ts[i]) { assert ts[i] in ts; }
    Spellings(c, ts);
    if line in ls {
      var j :| 0 <= j < |ls| && ls[j] == line;
      assert ts[j] in ts;
    }
    if t :| t in r.addrs && line == GoSpelling(c, t) {
      assert t in ts;
      var j :| 0 <= j < |ts| && ts[j] == t;
      assert ls[j] in ls;
    }
  }

  lemma {:induction false} SameTransports(c: Codec, r: RustAddr, lines: seq<string>)
    requires Lawful(c) && RustValid(c, r) && AllHavePayload(r)
    requires multiset(lines) == multiset(NormalLines(c, RustLines(c.order(r.addrs))))
    ensures RustTake(c, lines).Ok? && FromParts(r.id, RustTake(c, lines).value) == r
  {
    SameMultisetSameElements(lines, NormalLines(c, RustLines(c.order(r.addrs))));
    forall line | line in lines ensures Spells(c, r.addrs, line) {
      SpelledLines(c, r, line);
    }
    RustReadsSpellings(c, lines, r.addrs);
    var got := RustTake(c, lines).value;
    forall t | t in r.addrs ensures t in got {
      assert Spells(c, r.addrs, GoSpelling(c, t));
      SpelledLines(c, r, GoSpelling(c, t));
    }
    assert (set t | t in got) == r.addrs;
  }

  // ---- normalising ------------------------------------------------------------------------

  /** `EndpointAddr.Validate`: `iroh_addr_normalize`, and decoding what it returns. */
  function Validate(c: Codec, a: GoAddr): Result<GoAddr, ErrKind> {
    match RustDecode(c, GoEncode(a))
    case Err(e) => Err(e)
    case Ok(r) => GoDecode(c, RustEncode(c, r))
  }

  /** Validate fails only where Rust's parser does; what it returns is normal and valid; and
      validating again changes nothing. */
  lemma {:induction false} ValidateNormalises(c: Codec, a: GoAddr)
    requires Lawful(c)
    ensures Validate(c, a).Ok? <==> RustDecode(c, GoEncode(a)).Ok?
    ensures Validate(c, a).Err? ==> Validate(c, a).error == RustDecode(c, GoEncode(a)).error
    ensures Validate(c, a).Ok? ==>
      var b := Validate(c, a).value;
      GoNormal(c, b) && RustDecode(c, GoEncode(b)) == RustDecode(c, GoEncode(a)) && Validate(c, b) == Ok(b)
  {
    if RustDecode(c, GoEncode(a)).Ok? {
      var r := RustDecode(c, GoEncode(a)).value;
      DecodedIsValid(c, GoEncode(a));
      GoReadsRust(c, r);
      CrossLanguage(c, r);
    }
  }
}
