/**
 The canonical text a command's signature covers. SHA-256 in lower-case hex is an arbitrary
 function `hex` whose results are 64 hex digits.
 */
module Signing {
  import opened Options
  import opened Inventory
  import opened Decimal

  datatype Helm = Helm(releaseName: string, namespace: string, chartRef: string, version: string, valuesYaml: Bytes)

  /** A command without its signature. */
  datatype Command = Command(
    id: string, nonce: string, timestamp: int, verb: string, target: Ref, payload: Bytes,
    patchType: string, helm: Option<Helm>, expectedHash: string, override: bool)

  type Hex = Bytes -> string

  predicate IsHexDigit(c: char) {
    '0' <= c <= '9' || 'a' <= c <= 'f'
  }

  ghost predicate HexDigest(hex: Hex) {
    forall b: Bytes :: |hex(b)| == 64 && forall i | 0 <= i < 64 :: IsHexDigit(hex(b)[i])
  }

  function FormatBool(b: bool): string {
    if b then "true" else "false"
  }

  function Join(lines: seq<string>): string
    requires lines != []
  {
    if |lines| == 1 then lines[0] else Join(lines[..|lines| - 1]) + "\n" + lines[|lines| - 1]
  }

  function CommandLines(c: Command, hex: Hex): seq<string> {
    [c.nonce, FormatInt(c.timestamp), c.id, c.verb,
     c.target.group, c.target.version, c.target.resource, c.target.namespace, c.target.name,
     c.patchType, hex(c.payload), c.expectedHash, FormatBool(c.override)]
  }

  function HelmLines(h: Helm, hex: Hex): seq<string> {
    [h.releaseName, h.namespace, h.chartRef, h.version, hex(h.valuesYaml)]
  }

  function Lines(c: Command, hex: Hex): (lines: seq<string>)
    ensures |lines| == if c.helm.Some? then 18 else 13
  {
    CommandLines(c, hex) + match c.helm case None => [] case Some(h) => HelmLines(h, hex)
  }

  function SigningPayload(c: Command, hex: Hex): string {
    Join(Lines(c, hex))
  }

  /** The text cut at every newline. */
  function Split(s: string): (lines: seq<string>)
    ensures lines != []
  {
    if s == [] then [""]
    else
      var front := Split(s[..|s| - 1]);
      var n := |front| - 1;
      if s[|s| - 1] == '\n' then front + [""] else front[n := front[n] + [s[|s| - 1]]]
  }

  predicate OneLine(s: string) {
    '\n' !in s
  }

  lemma {:induction false} SplitOneLine(s: string)
    ensures |Split(s)| == 1 <==> OneLine(s)
    ensures OneLine(s) ==> Split(s) == [s]
  {
    if s != [] {
      var init := s[..|s| - 1];
      SplitOneLine(init);
      assert s == init + [s[|s| - 1]];
    }
  }

  /** Cutting at a newline that was put between two texts cuts there. */
  lemma {:induction false} SplitConcat(a: string, b: string)
    ensures Split(a + "\n" + b) == Split(a) + Split(b)
    decreases |b|
  {
    var s := a + "\n" + b;
    if b == [] {
      assert s[..|s| - 1] == a;
    } else {
      assert s[..|s| - 1] == a + "\n" + b[..|b| - 1];
      SplitConcat(a, b[..|b| - 1]);
    }
  }

  function Pieces(lines: seq<string>): seq<string> {
    if lines == [] then [] else Pieces(lines[..|lines| - 1]) + Split(lines[|lines| - 1])
  }

  lemma {:induction false} SplitJoin(lines: seq<string>)
    requires lines != []
    ensures Split(Join(lines)) == Pieces(lines)
  {
    if |lines| == 1 {
      assert lines[..0] == [];
    } else {
      var init := lines[..|lines| - 1];
      SplitJoin(init);
      SplitConcat(Join(init), lines[|lines| - 1]);
    }
  }

  /** Joining two lists of lines puts one newline between them. */
  lemma {:induction false} JoinConcat(a: seq<string>, b: seq<string>)
    requires a != [] && b != []
    ensures Join(a + b) == Join(a) + "\n" + Join(b)
    decreases |b|
  {
    var n := |b| - 1;
    assert (a + b)[..|a| + n] == a + b[..n];
    if n > 0 {
      JoinConcat(a, b[..n]);
    } else {
      assert a + b[..n] == a;
    }
  }

  /** The text survives when a stretch of lines is replaced by one that reads the same. */
  lemma JoinMiddle(front: seq<string>, p: seq<string>, q: seq<string>, back: seq<string>)
    requires p != [] && q != [] && Join(p) == Join(q)
    ensures Join(front + p + back) == Join(front + q + back)
  {
    if back != [] {
      JoinConcat(front + p, back);
      JoinConcat(front + q, back);
    } else {
      assert front + p + back == front + p && front + q + back == front + q;
    }
    if front != [] {
      JoinConcat(front, p);
      JoinConcat(front, q);
    } else {
      assert front + p == p && front + q == q;
    }
  }

  lemma {:induction false} JoinSplit(s: string)
    ensures Join(Split(s)) == s
  {
    if s != [] {
      var init, c := s[..|s| - 1], s[|s| - 1];
      var front := Split(init);
      var n := |front| - 1;
      JoinSplit(init);
      assert s == init + [c];
      if c == '\n' {
        JoinConcat(front, [""]);
      } else {
        assert Split(s)[..n] == front[..n];
      }
    }
  }

  /** What a signature pins down. */
  ghost predicate SameSigned(a: Command, b: Command, hex: Hex) {
    && a.nonce == b.nonce && a.timestamp == b.timestamp && a.id == b.id && a.verb == b.verb
    && a.target == b.target && a.patchType == b.patchType && hex(a.payload) == hex(b.payload)
    && a.expectedHash == b.expectedHash && a.override == b.override
    && match (a.helm, b.helm)
       case (None, None) => true
       case (Some(x), Some(y)) => x.(valuesYaml := []) == y.(valuesYaml := []) && hex(x.valuesYaml) == hex(y.valuesYaml)
       case _ => false
  }

  predicate Int64(n: int) {
    MIN <= n <= MAX
  }

  lemma SameHead(a: Command, b: Command, hex: Hex)
    requires Int64(a.timestamp) && Int64(b.timestamp)
    requires forall i | 0 <= i < 13 :: CommandLines(a, hex)[i] == CommandLines(b, hex)[i]
    ensures SameSigned(a.(helm := None), b.(helm := None), hex)
  {
    var x, y := CommandLines(a, hex), CommandLines(b, hex);
    assert x[0] == y[0] && x[1] == y[1] && x[2] == y[2] && x[3] == y[3] && x[4] == y[4] && x[5] == y[5];
    assert x[6] == y[6] && x[7] == y[7] && x[8] == y[8] && x[9] == y[9] && x[10] == y[10] && x[11] == y[11] &&
        x[12] == y[12];
    IntRoundTrip(a.timestamp);
    IntRoundTrip(b.timestamp);
  }

  /** Everything `SameSigned` compares is in the lines. */
  lemma SignedLines(a: Command, b: Command, hex: Hex)
    requires SameSigned(a, b, hex)
    ensures Lines(a, hex) == Lines(b, hex)
  {
  }

  /** And the lines hold nothing else. */
  lemma LinesPinDown(a: Command, b: Command, hex: Hex)
    requires Lines(a, hex) == Lines(b, hex) && Int64(a.timestamp) && Int64(b.timestamp)
    ensures SameSigned(a, b, hex)
  {
    var x, y := Lines(a, hex), Lines(b, hex);
    assert forall i | 0 <= i < 13 :: x[i] == CommandLines(a, hex)[i] && y[i] == CommandLines(b, hex)[i];
    assert forall i | 0 <= i < 13 :: CommandLines(a, hex)[i] == CommandLines(b, hex)[i];
    SameHead(a, b, hex);
    if a.helm.Some? {
      var h, k := HelmLines(a.helm.value, hex), HelmLines(b.helm.value, hex);
      forall i | 0 <= i < 5 ensures h[i] == k[i] {
        assert x[13 + i] == y[13 + i];
      }
      assert h[0] == k[0] && h[1] == k[1] && h[2] == k[2] && h[3] == k[3] && h[4] == k[4];
    }
  }

  lemma HexIsOneLine(hex: Hex, b: Bytes)
    requires HexDigest(hex)
    ensures OneLine(hex(b))
  {
  }

  lemma DecimalIsOneLine(n: int)
    ensures OneLine(FormatInt(n))
  {
    var d := Digits(if n < 0 then -n else n);
    assert forall i | 0 <= i < |d| :: IsDigit(d[i]);
  }

  /** The last line tells whether the helm block is there. */
  lemma LastLine(c: Command, hex: Hex)
    requires HexDigest(hex)
    ensures var p := Pieces(Lines(c, hex));
            p != [] && p[|p| - 1] ==
            match c.helm case None => FormatBool(c.override) case Some(h) => hex(h.valuesYaml)
  {
    var lines := Lines(c, hex);
    var last := lines[|lines| - 1];
    match c.helm {
      case None => assert last == FormatBool(c.override); assert OneLine(last);
      case Some(h) => HexIsOneLine(hex, h.valuesYaml);
    }
    SplitOneLine(last);
  }
}
