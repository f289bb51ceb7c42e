/** The signed text in full: which field stands on which line, and how to read it back. */
module SignedOrder {
  import opened Options
  import opened Inventory
  import opened Decimal
  import opened Signing

  /** The text, line by line, for every command. */
  lemma TextInOrder(c: Command, hex: Hex)
    ensures SigningPayload(c, hex) ==
            c.nonce + "\n" + FormatInt(c.timestamp) + "\n" + c.id + "\n" + c.verb + "\n"
            + c.target.group + "\n" + c.target.version + "\n" + c.target.resource + "\n" + c.target.namespace + "\n"
            + c.target.name + "\n" + c.patchType + "\n" + hex(c.payload) + "\n" + c.expectedHash + "\n"
            + (if c.override then "true" else "false")
            + (match c.helm
               case None => ""
               case Some(h) =>
                 "\n" + h.releaseName + "\n" + h.namespace + "\n" + h.chartRef + "\n" + h.version + "\n"
                 + hex(h.valuesYaml))
  {
    JoinThirteen(CommandLines(c, hex));
    match c.helm
    case None =>
      assert Lines(c, hex) == CommandLines(c, hex);
    case Some(h) =>
      JoinConcat(CommandLines(c, hex), HelmLines(h, hex));
      JoinFive(HelmLines(h, hex));
  }

  lemma JoinNext(l: seq<string>, k: nat)
    requires 0 < k < |l|
    ensures Join(l[..k + 1]) == Join(l[..k]) + "\n" + l[k]
  {
    assert l[..k + 1][..k] == l[..k];
  }

  lemma JoinFive(l: seq<string>)
    requires |l| == 5
    ensures Join(l) == l[0] + "\n" + l[1] + "\n" + l[2] + "\n" + l[3] + "\n" + l[4]
  {
    JoinNext(l, 1);
    JoinNext(l, 2);
    JoinNext(l, 3);
    JoinNext(l, 4);
    assert Join(l[..1]) == l[0] && l[..5] == l;
  }

  lemma JoinThirteen(l: seq<string>)
    requires |l| == 13
    ensures Join(l) == l[0] + "\n" + l[1] + "\n" + l[2] + "\n" + l[3] + "\n" + l[4] + "\n" + l[5] + "\n" + l[6] + "\n"
                       + l[7] + "\n" + l[8] + "\n" + l[9] + "\n" + l[10] + "\n" + l[11] + "\n" + l[12]
  {
    JoinFive(l[..5]);
    JoinNext(l, 5);
    JoinNext(l, 6);
    JoinNext(l, 7);
    JoinNext(l, 8);
    JoinNext(l, 9);
    JoinNext(l, 10);
    JoinNext(l, 11);
    JoinNext(l, 12);
    assert l[..13] == l;
  }

  // ------------------------------------------------------------- reading it back

  datatype SignedHelm = SignedHelm(releaseName: string, namespace: string, chartRef: string, version: string,
                                   valuesHash: string)

  /** What the text says, with the digests in place of payload and values. */
  datatype Signed = Signed(nonce: string, timestamp: int, id: string, verb: string, target: Ref, patchType: string,
                           payloadHash: string, expectedHash: string, override: bool, helm: Option<SignedHelm>)

  /** Read the text line by line. */
  function ReadSigned(text: string): Option<Signed> {
    ReadLines(Split(text))
  }

  function ReadLines(l: seq<string>): Option<Signed> {
    if |l| != 13 && |l| != 18 then None
    else
      match ParseInt(l[1])
      case None => None
      case Some(timestamp) =>
        if l[12] != "true" && l[12] != "false" then None
        else
          Some(Signed(l[0], timestamp, l[2], l[3], Ref(l[4], l[5], l[6], l[7], l[8]), l[9], l[10], l[11],
                      l[12] == "true",
                      if |l| == 13 then None else Some(SignedHelm(l[13], l[14], l[15], l[16], l[17]))))
  }

  /** No field holds a newline. */
  predicate NoNewlines(c: Command) {
    && OneLine(c.nonce) && OneLine(c.id) && OneLine(c.verb) && OneLine(c.patchType) && OneLine(c.expectedHash)
    && OneLine(c.target.group) && OneLine(c.target.version) && OneLine(c.target.resource)
    && OneLine(c.target.namespace) && OneLine(c.target.name)
    && (c.helm.Some? ==>
          && OneLine(c.helm.value.releaseName) && OneLine(c.helm.value.namespace)
          && OneLine(c.helm.value.chartRef) && OneLine(c.helm.value.version))
  }

  lemma {:induction false} PiecesOfLines(lines: seq<string>)
    requires forall i | 0 <= i < |lines| :: OneLine(lines[i])
    ensures Pieces(lines) == lines
  {
    if lines != [] {
      var n := |lines| - 1;
      PiecesOfLines(lines[..n]);
      SplitOneLine(lines[n]);
      assert lines == lines[..n] + [lines[n]];
    }
  }

  lemma AllOneLine(c: Command, hex: Hex)
    requires HexDigest(hex) && NoNewlines(c)
    ensures forall i | 0 <= i < |Lines(c, hex)| :: OneLine(Lines(c, hex)[i])
  {
    DecimalIsOneLine(c.timestamp);
    HexIsOneLine(hex, c.payload);
    if c.helm.Some? {
      HexIsOneLine(hex, c.helm.value.valuesYaml);
    }
  }

  /** What the text of a command says. */
  function SignedOf(c: Command, hex: Hex): Signed {
    Signed(c.nonce, c.timestamp, c.id, c.verb, c.target, c.patchType, hex(c.payload), c.expectedHash, c.override,
           match c.helm
           case None => None
           case Some(h) => Some(SignedHelm(h.releaseName, h.namespace, h.chartRef, h.version, hex(h.valuesYaml))))
  }

  lemma LinesReadBack(c: Command, hex: Hex)
    requires Int64(c.timestamp)
    ensures ReadLines(Lines(c, hex)) == Some(SignedOf(c, hex))
  {
    IntRoundTrip(c.timestamp);
    if c.helm.Some? {
      var h, l := HelmLines(c.helm.value, hex), Lines(c, hex);
      assert l[13] == h[0] && l[14] == h[1] && l[15] == h[2] && l[16] == h[3] && l[17] == h[4];
    }
  }

  /** The text of a command without newlines in its fields reads back as that command. */
  lemma ReadBack(c: Command, hex: Hex)
    requires HexDigest(hex) && NoNewlines(c) && Int64(c.timestamp)
    ensures ReadSigned(SigningPayload(c, hex)) == Some(SignedOf(c, hex))
  {
    AllOneLine(c, hex);
    SplitJoin(Lines(c, hex));
    PiecesOfLines(Lines(c, hex));
    LinesReadBack(c, hex);
  }
}
