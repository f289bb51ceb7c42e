/**
 When the signed text pins a command down: exactly when the newlines in its fields leave only
 one way to read the text as a command.
 */
module SignedText {
  import opened Options
  import opened Inventory
  import opened Decimal
  import opened Signing

  // ------------------------------------------------------------ the condition

  /** The lines that hold free text and have such a neighbour. */
  predicate Free(c: Command, i: nat) {
    2 <= i <= 9 || (c.helm.Some? && 13 <= i <= 16)
  }

  function WithCommandLine(c: Command, i: nat, s: string): Command
    requires 2 <= i <= 9
  {
    var t := c.target;
    match i
    case 2 => c.(id := s)
    case 3 => c.(verb := s)
    case 4 => c.(target := t.(group := s))
    case 5 => c.(target := t.(version := s))
    case 6 => c.(target := t.(resource := s))
    case 7 => c.(target := t.(namespace := s))
    case 8 => c.(target := t.(name := s))
    case _ => c.(patchType := s)
  }

  function WithHelmLine(h: Helm, i: nat, s: string): Helm
    requires i <= 3
  {
    match i
    case 0 => h.(releaseName := s)
    case 1 => h.(namespace := s)
    case 2 => h.(chartRef := s)
    case _ => h.(version := s)
  }

  /** Text that could be the timestamp line. */
  predicate IsTimestamp(s: string) {
    match ParseInt(s)
    case Some(n) => FormatInt(n) == s
    case None => false
  }

  ghost predicate IsDigest(s: string, hex: Hex) {
    exists b: Bytes :: hex(b) == s
  }

  predicate IsBool(s: string) {
    s == "true" || s == "false"
  }

  /** No newline in the fields that stand next to each other. */
  predicate SingleLines(c: Command) {
    && OneLine(c.id) && OneLine(c.verb) && OneLine(c.patchType)
    && OneLine(c.target.group) && OneLine(c.target.version) && OneLine(c.target.resource)
    && OneLine(c.target.namespace) && OneLine(c.target.name)
    && (c.helm.Some? ==>
          && OneLine(c.helm.value.releaseName) && OneLine(c.helm.value.namespace)
          && OneLine(c.helm.value.chartRef) && OneLine(c.helm.value.version))
  }

  /**
   The nonce and the expected hash stand between lines of fixed form. A newline in them is
   harmless unless what follows it (or comes before one) could be such a line itself.
   */
  ghost predicate PinnedDown(c: Command, hex: Hex) {
    var nonce, hash := Split(c.nonce), Split(c.expectedHash);
    && SingleLines(c)
    && (forall j | 1 <= j < |nonce| :: !IsTimestamp(nonce[j]))
    && (forall j | 0 <= j < |hash| - 1 :: !IsDigest(hash[j], hex))
    && (c.helm.Some? ==> forall j | 1 <= j < |hash| :: !IsBool(hash[j]))
  }

  /** The text pins the command down. */
  ghost predicate Unambiguous(a: Command, hex: Hex) {
    forall b: Command {:trigger SigningPayload(b, hex)} |
      Int64(b.timestamp) && SigningPayload(b, hex) == SigningPayload(a, hex) :: SameSigned(a, b, hex)
  }

  // ------------------------------------------------------ pinned down is enough

  /** Where the pieces of line `i` begin. */
  function Offset(lines: seq<string>, i: nat): nat
    requires i <= |lines|
  {
    |Pieces(lines[..i])|
  }

  lemma OffsetNext(lines: seq<string>, i: nat)
    requires i < |lines|
    ensures Offset(lines, i + 1) == Offset(lines, i) + |Split(lines[i])|
    ensures OneLine(lines[i]) ==> Offset(lines, i + 1) == Offset(lines, i) + 1
  {
    assert lines[..i + 1][..i] == lines[..i];
    SplitOneLine(lines[i]);
  }

  lemma {:induction false} OffsetGap(lines: seq<string>, i: nat, j: nat)
    requires i <= j <= |lines|
    ensures Offset(lines, j) >= Offset(lines, i) + (j - i)
    decreases j
  {
    if i < j {
      OffsetGap(lines, i, j - 1);
      OffsetNext(lines, j - 1);
    }
  }

  /** Where every line in a stretch is a single line, offsets grow by one. */
  lemma {:induction false} OffsetSingle(lines: seq<string>, i: nat, j: nat)
    requires i <= j <= |lines| && forall k | i <= k < j :: OneLine(lines[k])
    ensures Offset(lines, j) == Offset(lines, i) + (j - i)
    decreases j
  {
    if i < j {
      OffsetSingle(lines, i, j - 1);
      OffsetNext(lines, j - 1);
    }
  }

  /** The pieces of line `i`, found in the pieces of all lines. */
  lemma {:induction false} PieceOfLine(lines: seq<string>, i: nat)
    requires i < |lines|
    ensures Offset(lines, i) <= Offset(lines, i + 1) <= |Pieces(lines)|
    ensures Pieces(lines)[Offset(lines, i)..Offset(lines, i + 1)] == Split(lines[i])
    decreases |lines|
  {
    var n := |lines| - 1;
    OffsetNext(lines, i);
    if i < n {
      PieceOfLine(lines[..n], i);
      assert lines[..n][..i] == lines[..i] && lines[..n][..i + 1] == lines[..i + 1];
    } else {
      assert lines[..i + 1] == lines;
    }
  }

  lemma PieceOfLineAt(lines: seq<string>, i: nat, j: nat)
    requires i < |lines| && j < |Split(lines[i])|
    ensures Offset(lines, i) + j < |Pieces(lines)| && Pieces(lines)[Offset(lines, i) + j] == Split(lines[i])[j]
  {
    PieceOfLine(lines, i);
    OffsetNext(lines, i);
    var p := Pieces(lines)[Offset(lines, i)..Offset(lines, i + 1)];
    assert p[j] == Split(lines[i])[j];
  }

  /** Same pieces at the same offsets: same lines. */
  lemma SameOffsets(x: seq<string>, y: seq<string>)
    requires |x| == |y| && Pieces(x) == Pieces(y)
    requires forall i | 0 <= i <= |x| :: Offset(x, i) == Offset(y, i)
    ensures x == y
  {
    forall i | 0 <= i < |x| ensures x[i] == y[i] {
      PieceOfLine(x, i);
      PieceOfLine(y, i);
      assert Offset(x, i + 1) == Offset(y, i + 1);
      JoinSplit(x[i]);
      JoinSplit(y[i]);
    }
  }

  /** The lines of a command whose position and form are fixed. */
  lemma FixedLines(c: Command, hex: Hex)
    requires HexDigest(hex)
    ensures var x := Lines(c, hex);
            && OneLine(x[1]) && OneLine(x[10]) && OneLine(x[12]) && (c.helm.Some? ==> OneLine(x[17]))
            && x[1] == FormatInt(c.timestamp) && IsDigest(x[10], hex) && IsBool(x[12])
            && (Int64(c.timestamp) ==> IsTimestamp(x[1]))
  {
    DecimalIsOneLine(c.timestamp);
    HexIsOneLine(hex, c.payload);
    if c.helm.Some? {
      HexIsOneLine(hex, c.helm.value.valuesYaml);
    }
    if Int64(c.timestamp) {
      IntRoundTrip(c.timestamp);
    }
  }

  /** How the lines of any command lie. */
  lemma Layout(x: seq<string>)
    requires |x| in [13, 18] && OneLine(x[1]) && OneLine(x[10]) && OneLine(x[12])
    ensures Offset(x, 0) == 0 && Offset(x, 1) == |Split(x[0])| && Offset(x, 2) == Offset(x, 1) + 1
    ensures Offset(x, 10) >= Offset(x, 2) + 8 && Offset(x, 11) == Offset(x, 10) + 1
    ensures Offset(x, 12) == Offset(x, 11) + |Split(x[11])| && Offset(x, 13) == Offset(x, 12) + 1
    ensures Offset(x, |x|) >= Offset(x, 13) + (|x| - 13) && Offset(x, |x|) == |Pieces(x)|
  {
    assert x[..0] == [];
    OffsetNext(x, 0);
    OffsetNext(x, 1);
    OffsetGap(x, 2, 10);
    OffsetNext(x, 10);
    OffsetNext(x, 11);
    OffsetNext(x, 12);
    OffsetGap(x, 13, |x|);
    assert x[..|x|] == x;
  }

  /** The lines of a command whose neighbouring fields are single lines. */
  lemma TightLayout(c: Command, hex: Hex)
    requires HexDigest(hex) && SingleLines(c)
    ensures var x := Lines(c, hex);
            Offset(x, 10) == Offset(x, 2) + 8 && Offset(x, |x|) == Offset(x, 13) + (|x| - 13)
  {
    var x := Lines(c, hex);
    FixedLines(c, hex);
    OffsetSingle(x, 2, 10);
    OffsetSingle(x, 13, |x|);
  }

  /** A single line of the one text, found inside a field of the other. */
  lemma FoundInside(x: seq<string>, y: seq<string>, i: nat, k: nat)
    requires i < |x| && k < |y| && Pieces(x) == Pieces(y) && OneLine(y[k])
    ensures var j := Offset(y, k) - Offset(x, i);
            0 <= j < |Split(x[i])| ==> Split(x[i])[j] == y[k]
  {
    var j := Offset(y, k) - Offset(x, i);
    SplitOneLine(y[k]);
    PieceOfLineAt(y, k, 0);
    if 0 <= j < |Split(x[i])| {
      PieceOfLineAt(x, i, j);
    }
  }

  /** Where the fixed lines begin, and where the text ends. */
  datatype Marks = Marks(m1: int, m2: int, m10: int, m11: int, m12: int, m13: int, end: int)

  function MarksOf(x: seq<string>): Marks
    requires |x| >= 13
  {
    Marks(Offset(x, 1), Offset(x, 2), Offset(x, 10), Offset(x, 11), Offset(x, 12), Offset(x, 13), Offset(x, |x|))
  }

  predicate Spread(m: Marks, lines: int) {
    && m.m2 == m.m1 + 1 && m.m10 >= m.m2 + 8 && m.m11 == m.m10 + 1 && m.m12 >= m.m11 + 1
    && m.m13 == m.m12 + 1 && m.end >= m.m13 + (lines - 13)
  }

  predicate Tight(m: Marks, lines: int) {
    m.m10 == m.m2 + 8 && m.end == m.m13 + (lines - 13)
  }

  lemma MarksAgree(x: Marks, y: Marks, lines: int)
    requires lines in [13, 18] && Spread(x, lines) && Tight(x, lines) && Spread(y, lines) && x.end == y.end
    requires y.m1 >= x.m1
    requires !(x.m11 <= y.m10 < x.m12 - 1)
    requires lines == 18 ==> !(x.m11 + 1 <= y.m12 < x.m12)
    requires lines == 13 ==> x.end == x.m13 && y.end == y.m13
    ensures x == y
  {
  }

  lemma MarksSpread(c: Command, hex: Hex)
    requires HexDigest(hex)
    ensures var x := Lines(c, hex);
        Spread(MarksOf(x), |x|) && MarksOf(x).end == |Pieces(x)| && MarksOf(x).m1 == |Split(x[0])|
    ensures var x := Lines(c, hex);
        MarksOf(x).m12 == MarksOf(x).m11 + |Split(x[11])| && (|x| == 13 ==> MarksOf(x).end == MarksOf(x).m13)
    ensures SingleLines(c) ==> Tight(MarksOf(Lines(c, hex)), |Lines(c, hex)|)
  {
    FixedLines(c, hex);
    Layout(Lines(c, hex));
    if SingleLines(c) {
      TightLayout(c, hex);
    }
  }

  /** Two commands with the same text, the first pinned down: their fixed lines lie at the same places. */
  lemma SamePlaces(a: Command, b: Command, hex: Hex)
    requires HexDigest(hex) && PinnedDown(a, hex) && Int64(b.timestamp)
    requires |Lines(a, hex)| == |Lines(b, hex)| && Pieces(Lines(a, hex)) == Pieces(Lines(b, hex))
    ensures MarksOf(Lines(a, hex)) == MarksOf(Lines(b, hex))
  {
    var x, y := Lines(a, hex), Lines(b, hex);
    FixedLines(b, hex);
    MarksSpread(a, hex);
    MarksSpread(b, hex);
    assert x[0] == a.nonce && x[11] == a.expectedHash && Offset(x, 0) == 0;
    FoundInside(x, y, 0, 1);
    FoundInside(x, y, 11, 10);
    FoundInside(x, y, 11, 12);
    OffsetGap(y, 0, 1);
    MarksAgree(MarksOf(x), MarksOf(y), |x|);
  }

  lemma {:induction false} SameBetween(x: seq<string>, y: seq<string>, lo: nat, hi: nat, i: nat)
    requires lo <= i <= hi <= |x| && hi <= |y|
    requires Offset(x, lo) == Offset(y, lo) && Offset(x, hi) == Offset(y, hi) == Offset(x, lo) + (hi - lo)
    ensures Offset(x, i) == Offset(y, i)
  {
    OffsetGap(x, lo, i);
    OffsetGap(x, i, hi);
    OffsetGap(y, lo, i);
    OffsetGap(y, i, hi);
  }

  lemma SameEverywhere(x: seq<string>, y: seq<string>, i: nat)
    requires |x| == |y| && |x| in [13, 18] && i <= |x|
    requires MarksOf(x) == MarksOf(y) && Tight(MarksOf(x), |x|)
    ensures Offset(x, i) == Offset(y, i)
  {
    if i == 0 {
      assert x[..0] == y[..0];
    } else if 2 <= i <= 10 {
      SameBetween(x, y, 2, 10, i);
    } else if 13 <= i {
      SameBetween(x, y, 13, |x|, i);
    }
  }

  /**
   The text of a pinned-down command is the text of no other command, whatever that other one
   contains: every field and both digests agree, and the helm block is in both or in neither.
   */
  lemma PayloadIsUnambiguous(a: Command, b: Command, hex: Hex)
    requires HexDigest(hex) && PinnedDown(a, hex) && Int64(a.timestamp) && Int64(b.timestamp)
    requires SigningPayload(a, hex) == SigningPayload(b, hex)
    ensures SameSigned(a, b, hex)
  {
    var x, y := Lines(a, hex), Lines(b, hex);
    SplitJoin(x);
    SplitJoin(y);
    LastLine(a, hex);
    LastLine(b, hex);
    SamePlaces(a, b, hex);
    MarksSpread(a, hex);
    forall i | 0 <= i <= |x| ensures Offset(x, i) == Offset(y, i) {
      SameEverywhere(x, y, i);
    }
    SameOffsets(x, y);
    LinesPinDown(a, b, hex);
  }

  // -------------------------------------------------------- and it is necessary

  /** Piece `j` of a text, and what is around it. */
  lemma {:induction false} AroundPiece(s: string, j: nat) returns (x: string, z: string)
    requires j < |Split(s)|
    ensures s == x + Split(s)[j] + z
    ensures if j == 0 then x == "" else x != "" && x[|x| - 1] == '\n'
    ensures if j == |Split(s)| - 1 then z == "" else z != "" && z[0] == '\n'
  {
    if s == [] {
      return "", "";
    }
    var init, c := s[..|s| - 1], s[|s| - 1];
    assert s == init + [c];
    if c == '\n' && j == |Split(s)| - 1 {
      return s, "";
    }
    x, z := AroundPiece(init, j);
    if c == '\n' || j < |Split(s)| - 1 {
      z := z + [c];
    }
  }

  lemma AtNewline(s: string) returns (x: string, y: string)
    requires !OneLine(s)
    ensures s == x + "\n" + y
  {
    var i :| 0 <= i < |s| && s[i] == '\n';
    x, y := s[..i], s[i + 1..];
  }

  lemma JoinPair(p: string, q: string)
    ensures Join([p, q]) == p + "\n" + q
  {
    assert [p, q][..1] == [p];
  }

  lemma JoinTriple(p: string, q: string, r: string)
    ensures Join([p, q, r]) == p + "\n" + q + "\n" + r
  {
    assert [p, q, r][..2] == [p, q];
    JoinPair(p, q);
  }

  lemma CutElsewhere(a: string, b: string) returns (p: string, q: string)
    requires !OneLine(a) || !OneLine(b)
    ensures a + "\n" + b == p + "\n" + q && p != a
  {
    if !OneLine(a) {
      var l, r := AtNewline(a);
      p, q := l, r + "\n" + b;
    } else {
      var l, r := AtNewline(b);
      p, q := a + "\n" + l, r;
    }
  }

  lemma JoinElsewhere(x: seq<string>, i: nat, p: string, q: string)
    requires i + 1 < |x| && x[i] + "\n" + x[i + 1] == p + "\n" + q
    ensures Join(x[i := p][i + 1 := q]) == Join(x)
  {
    JoinPair(x[i], x[i + 1]);
    JoinPair(p, q);
    JoinMiddle(x[..i], [x[i], x[i + 1]], [p, q], x[i + 2..]);
    assert x == x[..i] + [x[i], x[i + 1]] + x[i + 2..];
    assert x[i := p][i + 1 := q] == x[..i] + [p, q] + x[i + 2..];
  }

  lemma JoinElsewhere3(x: seq<string>, i: nat, p: string, q: string, r: string)
    requires i + 2 < |x| && x[i] + "\n" + x[i + 1] + "\n" + x[i + 2] == p + "\n" + q + "\n" + r
    ensures Join(x[i := p][i + 1 := q][i + 2 := r]) == Join(x)
  {
    JoinTriple(x[i], x[i + 1], x[i + 2]);
    JoinTriple(p, q, r);
    JoinMiddle(x[..i], [x[i], x[i + 1], x[i + 2]], [p, q, r], x[i + 3..]);
    assert x == x[..i] + [x[i], x[i + 1], x[i + 2]] + x[i + 3..];
    assert x[i := p][i + 1 := q][i + 2 := r] == x[..i] + [p, q, r] + x[i + 3..];
  }

  /** A newline in one of two neighbouring lines: the same text, cut elsewhere. */
  lemma Recut(c: Command, i: nat, hex: Hex) returns (d: Command)
    requires Free(c, i) && Free(c, i + 1)
    requires !OneLine(Lines(c, hex)[i]) || !OneLine(Lines(c, hex)[i + 1])
    ensures SigningPayload(d, hex) == SigningPayload(c, hex) && d.timestamp == c.timestamp
    ensures Lines(d, hex) != Lines(c, hex)
  {
    var x := Lines(c, hex);
    var p, q := CutElsewhere(x[i], x[i + 1]);
    JoinElsewhere(x, i, p, q);
    var e := SetLine(c, i, p, hex);
    d := SetLine(e, i + 1, q, hex);
    assert Lines(d, hex)[i] == p;
  }

  lemma SetLine(c: Command, i: nat, s: string, hex: Hex) returns (d: Command)
    requires Free(c, i)
    ensures Lines(d, hex) == Lines(c, hex)[i := s]
    ensures d.helm.Some? == c.helm.Some? && d.timestamp == c.timestamp
  {
    if i <= 9 {
      d := WithCommandLine(c, i, s);
      CommandLineSet(c, i, s, hex);
    } else {
      d := c.(helm := Some(WithHelmLine(c.helm.value, i - 13, s)));
      HelmLineSet(c.helm.value, i - 13, s, hex);
      assert CommandLines(d, hex) == CommandLines(c, hex);
    }
  }

  lemma CommandLineSet(c: Command, i: nat, s: string, hex: Hex)
    requires 2 <= i <= 9
    ensures var d := WithCommandLine(c, i, s);
            CommandLines(d, hex) == CommandLines(c, hex)[i := s] && d.helm == c.helm && d.timestamp == c.timestamp
  {
  }

  lemma HelmLineSet(h: Helm, i: nat, s: string, hex: Hex)
    requires i <= 3
    ensures HelmLines(WithHelmLine(h, i, s), hex) == HelmLines(h, hex)[i := s]
  {
  }

  lemma NewlineSomewhere(c: Command, hex: Hex) returns (i: nat)
    requires !SingleLines(c)
    ensures Free(c, i) && Free(c, i + 1) && (!OneLine(Lines(c, hex)[i]) || !OneLine(Lines(c, hex)[i + 1]))
  {
    if !OneLine(c.id) || !OneLine(c.verb) {
      return 2;
    } else if !OneLine(c.target.group) || !OneLine(c.target.version) {
      return 4;
    } else if !OneLine(c.target.resource) || !OneLine(c.target.namespace) {
      return 6;
    } else if !OneLine(c.target.name) || !OneLine(c.patchType) {
      return 8;
    } else if !OneLine(c.helm.value.releaseName) || !OneLine(c.helm.value.namespace) {
      return 13;
    } else {
      return 15;
    }
  }

  /** What follows a piece, moved in front of the next field. */
  function Onto(z: string, rest: string): string {
    if z == "" then rest else z[1..] + "\n" + rest
  }

  lemma MoveOn(s: string, j: nat, mid: string, rest: string) returns (x: string, r: string)
    requires 1 <= j < |Split(s)|
    ensures s + "\n" + mid + "\n" + rest == x + "\n" + Split(s)[j] + "\n" + r && x != s
  {
    var front, z := AroundPiece(s, j);
    x, r := front[..|front| - 1], Onto(z, mid + "\n" + rest);
    assert front == x + "\n" && |x| < |s|;
    assert s + "\n" + mid + "\n" + rest == s + "\n" + (mid + "\n" + rest);
    GlueAfter(x, Split(s)[j], z, mid + "\n" + rest);
  }

  lemma GlueAfter(x: string, piece: string, z: string, tail: string)
    requires z != "" ==> z[0] == '\n'
    ensures (x + "\n" + piece + z) + "\n" + tail == x + "\n" + piece + "\n" + Onto(z, tail)
  {
    if z != "" {
      var y := z[1..];
      assert z == "\n" + y;
      assert (x + "\n" + piece + ("\n" + y)) + "\n" + tail == x + "\n" + piece + "\n" + (y + "\n" + tail);
    }
  }

  lemma MoveBack(front: string, mid: string, s: string, j: nat) returns (l: string, z: string)
    requires j < |Split(s)| - 1
    ensures front + "\n" + mid + "\n" + s == l + "\n" + Split(s)[j] + "\n" + z && z != s
  {
    var x, rest := AroundPiece(s, j);
    z := rest[1..];
    var head := front + "\n" + mid;
    assert rest == "\n" + z && |z| < |s|;
    if x == "" {
      l := head;
      assert s == Split(s)[j] + ("\n" + z);
      assert head + "\n" + (Split(s)[j] + ("\n" + z)) == head + "\n" + Split(s)[j] + "\n" + z;
    } else {
      var y := x[..|x| - 1];
      l := head + "\n" + y;
      assert x == y + "\n";
      assert s == y + "\n" + Split(s)[j] + ("\n" + z);
      GlueBefore(head, y, Split(s)[j], z);
    }
  }

  lemma GlueBefore(head: string, y: string, piece: string, z: string)
    ensures head + "\n" + (y + "\n" + piece + ("\n" + z)) == (head + "\n" + y) + "\n" + piece + "\n" + z
  {
  }

  /** A piece of the nonce that could be the timestamp. */
  lemma OtherNonce(c: Command, j: nat, hex: Hex) returns (d: Command)
    requires 1 <= j < |Split(c.nonce)| && IsTimestamp(Split(c.nonce)[j])
    ensures SigningPayload(d, hex) == SigningPayload(c, hex) && Int64(d.timestamp) && d.nonce != c.nonce
  {
    var x := Lines(c, hex);
    var p, r := MoveOn(c.nonce, j, x[1], c.id);
    var t := ParseInt(Split(c.nonce)[j]).value;
    JoinElsewhere3(x, 0, p, FormatInt(t), r);
    d := c.(nonce := p, timestamp := t, id := r);
    assert CommandLines(d, hex) == CommandLines(c, hex)[0 := p][1 := FormatInt(t)][2 := r];
    assert Lines(d, hex) == x[0 := p][1 := FormatInt(t)][2 := r];
  }

  /** A piece of the expected hash that could be the payload's digest. */
  lemma OtherDigest(c: Command, j: nat, hex: Hex) returns (d: Command)
    requires j < |Split(c.expectedHash)| - 1 && IsDigest(Split(c.expectedHash)[j], hex)
    ensures SigningPayload(d, hex) == SigningPayload(c, hex) && d.timestamp == c.timestamp
    ensures d.expectedHash != c.expectedHash
  {
    var x := Lines(c, hex);
    var l, z := MoveBack(c.patchType, x[10], c.expectedHash, j);
    var b: Bytes :| hex(b) == Split(c.expectedHash)[j];
    JoinElsewhere3(x, 9, l, hex(b), z);
    d := c.(patchType := l, payload := b, expectedHash := z);
    assert CommandLines(d, hex) == CommandLines(c, hex)[9 := l][10 := hex(b)][11 := z];
    assert Lines(d, hex) == x[9 := l][10 := hex(b)][11 := z];
  }

  /** A piece of the expected hash that could be the override flag, with a helm block behind it. */
  lemma OtherFlag(c: Command, j: nat, hex: Hex) returns (d: Command)
    requires c.helm.Some? && 1 <= j < |Split(c.expectedHash)| && IsBool(Split(c.expectedHash)[j])
    ensures SigningPayload(d, hex) == SigningPayload(c, hex) && d.timestamp == c.timestamp
    ensures d.expectedHash != c.expectedHash
  {
    var x := Lines(c, hex);
    var p, r := MoveOn(c.expectedHash, j, x[12], c.helm.value.releaseName);
    var flag := Split(c.expectedHash)[j];
    JoinElsewhere3(x, 11, p, flag, r);
    d := c.(expectedHash := p, override := flag == "true", helm := Some(c.helm.value.(releaseName := r)));
    assert FormatBool(d.override) == flag;
    assert CommandLines(d, hex) == CommandLines(c, hex)[11 := p][12 := flag];
    assert HelmLines(d.helm.value, hex) == HelmLines(c.helm.value, hex)[0 := r];
    assert Lines(d, hex) == x[11 := p][12 := flag][13 := r];
  }

  /** A command that is not pinned down shares its text with another one. */
  lemma OtherReading(a: Command, hex: Hex) returns (d: Command)
    requires !PinnedDown(a, hex) && Int64(a.timestamp)
    ensures SigningPayload(d, hex) == SigningPayload(a, hex) && Int64(d.timestamp) && !SameSigned(a, d, hex)
  {
    var nonce, hash := Split(a.nonce), Split(a.expectedHash);
    if !SingleLines(a) {
      var i := NewlineSomewhere(a, hex);
      d := Recut(a, i, hex);
      if SameSigned(a, d, hex) {
        SignedLines(a, d, hex);
      }
    } else if j :| 1 <= j < |nonce| && IsTimestamp(nonce[j]) {
      d := OtherNonce(a, j, hex);
    } else if j :| 0 <= j < |hash| - 1 && IsDigest(hash[j], hex) {
      d := OtherDigest(a, j, hex);
    } else {
      var j :| 1 <= j < |hash| && IsBool(hash[j]);
      d := OtherFlag(a, j, hex);
    }
  }

  /** The text of a command is the text of no other command, exactly when the command is pinned down. */
  lemma UnambiguousExactly(a: Command, hex: Hex)
    requires HexDigest(hex) && Int64(a.timestamp)
    ensures Unambiguous(a, hex) <==> PinnedDown(a, hex)
  {
    if PinnedDown(a, hex) {
      forall b: Command | Int64(b.timestamp) && SigningPayload(b, hex) == SigningPayload(a, hex)
        ensures SameSigned(a, b, hex)
      {
        PayloadIsUnambiguous(a, b, hex);
      }
    } else {
      var d := OtherReading(a, hex);
    }
  }

  /** In particular a command without any newline is pinned down. */
  lemma SingleLineIsPinnedDown(a: Command, hex: Hex)
    requires SingleLines(a) && OneLine(a.nonce) && OneLine(a.expectedHash)
    ensures PinnedDown(a, hex)
  {
    SplitOneLine(a.nonce);
    SplitOneLine(a.expectedHash);
  }
}
