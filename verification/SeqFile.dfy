/**
 The sequence number on disk: written after each acknowledged batch, read at startup, so that
 numbers keep increasing across restarts.
 */
module SeqFile {
  import opened Options
  import opened Decimal

  /** Unicode white space, as `strings.TrimSpace` strips it. */
  predicate IsSpace(c: char) {
    || '\t' <= c <= '\r' || c == ' ' || c == '\U{0085}' || c == '\U{00A0}' || c == '\U{1680}'
    || '\U{2000}' <= c <= '\U{200A}' || c == '\U{2028}' || c == '\U{2029}' || c == '\U{202F}'
    || c == '\U{205F}' || c == '\U{3000}'
  }

  function TrimSpace(s: string): string {
    if s != [] && IsSpace(s[0]) then TrimSpace(s[1..])
    else if s != [] && IsSpace(s[|s| - 1]) then TrimSpace(s[..|s| - 1])
    else s
  }

  /** `readSeq`: an absent, unreadable or negative file counts as zero. */
  function ReadSeq(file: Option<string>): (n: int)
    ensures n >= 0
  {
    match file
    case None => 0
    case Some(data) =>
      (match ParseInt(TrimSpace(data))
       case None => 0
       case Some(n) => if n < 0 then 0 else n)
  }

  lemma FormatHasNoSpace(n: int)
    ensures TrimSpace(FormatInt(n)) == FormatInt(n)
  {
    var s := FormatInt(n);
    assert !IsSpace('-');
    assert n < 0 ==> s[|s| - 1] == Digits(-n)[|s| - 2];
  }

  /** What `persistSeq` writes, `readSeq` reads back. */
  lemma SeqFileRoundTrip(n: int)
    requires 0 <= n <= MAX
    ensures ReadSeq(Some(FormatInt(n))) == n
  {
    FormatHasNoSpace(n);
    IntRoundTrip(n);
  }

  predicate AllSpace(s: string) {
    forall i | 0 <= i < |s| :: IsSpace(s[i])
  }

  lemma {:induction false} TrimFront(a: string, s: string)
    requires AllSpace(a)
    ensures TrimSpace(a + s) == TrimSpace(s)
    decreases |a|
  {
    if a == [] {
      assert a + s == s;
    } else {
      assert (a + s)[1..] == a[1..] + s && (a + s)[0] == a[0];
      TrimFront(a[1..], s);
    }
  }

  lemma {:induction false} TrimBack(s: string, b: string)
    requires AllSpace(b) && s != [] && !IsSpace(s[0])
    ensures TrimSpace(s + b) == TrimSpace(s)
    decreases |b|
  {
    if b == [] {
      assert s + b == s;
    } else {
      var n := |b| - 1;
      assert (s + b)[..|s| + n] == s + b[..n] && (s + b)[|s| + n] == b[n] && (s + b)[0] == s[0];
      TrimBack(s, b[..n]);
    }
  }

  /** Space around the number in the file does not matter. */
  lemma SpaceIsIgnored(n: int, a: string, b: string)
    requires 0 <= n <= MAX && AllSpace(a) && AllSpace(b)
    ensures ReadSeq(Some(a + FormatInt(n) + b)) == n
  {
    var s := FormatInt(n);
    assert a + s + b == a + (s + b);
    TrimFront(a, s + b);
    assert IsDigit(s[0]);
    TrimBack(s, b);
    SeqFileRoundTrip(n);
  }

  // ------------------------------------------------------- across lifetimes

  /** The number in memory, the file, and every number a batch was acknowledged under, in order. */
  datatype State = State(seqNo: int, file: Option<string>, accepted: seq<int>)

  datatype Action =
    | Acknowledge(persisted: bool)  // a send succeeds; writing the file may fail
    | Restart                       // the process starts again from the file

  function Step(s: State, a: Action): State {
    match a
    case Acknowledge(persisted) =>
      State(s.seqNo + 1, if persisted then Some(FormatInt(s.seqNo + 1)) else s.file, s.accepted + [s.seqNo + 1])
    case Restart => s.(seqNo := ReadSeq(s.file))
  }

  function Run(s: State, actions: seq<Action>): State {
    if actions == [] then s else Step(Run(s, actions[..|actions| - 1]), actions[|actions| - 1])
  }

  /** A first start from a file holding `first` (an absent or unreadable file holds 0). */
  function Start(file: Option<string>): State {
    State(ReadSeq(file), file, [])
  }

  /** The file is up to date. */
  predicate Durable(s: State) {
    ReadSeq(s.file) == s.seqNo
  }

  /** first+1, first+2, ... up to the number in memory. */
  predicate Consecutive(s: State, first: int) {
    s.seqNo == first + |s.accepted| && forall k | 0 <= k < |s.accepted| :: s.accepted[k] == first + 1 + k
  }

  /** What a step leaves in the file. */
  lemma StepFile(s: State, a: Action)
    requires 0 <= s.seqNo < MAX
    ensures ReadSeq(Step(s, a).file) == if a == Acknowledge(true) then s.seqNo + 1 else ReadSeq(s.file)
  {
    SeqFileRoundTrip(s.seqNo + 1);
  }

  /** The file never runs ahead of memory. */
  lemma {:induction false} FileBehind(file: Option<string>, actions: seq<Action>)
    requires ReadSeq(file) + |actions| <= MAX
    ensures 0 <= ReadSeq(Run(Start(file), actions).file) <= Run(Start(file), actions).seqNo <= ReadSeq(file) + |actions|
  {
    if actions != [] {
      var n := |actions| - 1;
      FileBehind(file, actions[..n]);
      StepFile(Run(Start(file), actions[..n]), actions[n]);
    }
  }

  ghost predicate RestartsDurably(s: State, actions: seq<Action>) {
    forall k | 0 <= k < |actions| && actions[k].Restart? :: Durable(Run(s, actions[..k]))
  }

  /** Across any number of restarts, if each finds the file up to date, no number is skipped or used twice. */
  lemma {:induction false} NumbersSurviveRestarts(file: Option<string>, actions: seq<Action>)
    requires RestartsDurably(Start(file), actions)
    ensures Consecutive(Run(Start(file), actions), ReadSeq(file))
  {
    if actions != [] {
      var n := |actions| - 1;
      forall k | 0 <= k < n && actions[..n][k].Restart? ensures Durable(Run(Start(file), actions[..n][..k])) {
        assert actions[..n][..k] == actions[..k] && actions[k].Restart?;
      }
      NumbersSurviveRestarts(file, actions[..n]);
    }
  }

  /** The highest number ever accepted, `first` before there is one. */
  function Highest(accepted: seq<int>, first: int): int {
    if accepted == [] then first
    else
      var n := |accepted| - 1;
      var h := Highest(accepted[..n], first);
      if accepted[n] > h then accepted[n] else h
  }

  /** Over every run, whatever the restarts found: the numbers used are first+1 up to the highest, none left out. */
  lemma {:induction false} NumbersHaveNoGap(file: Option<string>, actions: seq<Action>)
    requires ReadSeq(file) + |actions| <= MAX
    ensures var s, first := Run(Start(file), actions), ReadSeq(file);
            && first <= s.seqNo <= Highest(s.accepted, first)
            && forall n :: n in s.accepted <==> first < n <= Highest(s.accepted, first)
  {
    if actions != [] {
      var n := |actions| - 1;
      var s, s' := Run(Start(file), actions[..n]), Run(Start(file), actions);
      NumbersHaveNoGap(file, actions[..n]);
      FileBehind(file, actions[..n]);
      FileAtLeast(file, actions[..n]);
      if actions[n].Acknowledge? {
        assert s'.accepted[..|s.accepted|] == s.accepted;
      }
    }
  }

  /**
   After every run, a restart makes the next number one that was used before exactly when the file
   is behind the highest number ever accepted.
   */
  lemma StaleFileRepeatsNumber(file: Option<string>, actions: seq<Action>, persisted: bool)
    requires ReadSeq(file) + |actions| <= MAX
    ensures var s := Run(Start(file), actions);
            Step(Step(s, Restart), Acknowledge(persisted)).accepted[|s.accepted|] in s.accepted <==>
            ReadSeq(s.file) < Highest(s.accepted, ReadSeq(file))
  {
    FileAtLeast(file, actions);
    NumbersHaveNoGap(file, actions);
  }

  lemma {:induction false} FileAtLeast(file: Option<string>, actions: seq<Action>)
    requires ReadSeq(file) + |actions| <= MAX
    ensures ReadSeq(Run(Start(file), actions).file) >= ReadSeq(file)
  {
    if actions != [] {
      var n := |actions| - 1;
      FileAtLeast(file, actions[..n]);
      FileBehind(file, actions[..n]);
      StepFile(Run(Start(file), actions[..n]), actions[n]);
    }
  }

  /** A number stands in the file when, without the space around it, it reads as a non-negative 64-bit decimal. */
  predicate Readable(file: Option<string>) {
    file.Some? && ParseInt(TrimSpace(file.value)).Some? && ParseInt(TrimSpace(file.value)).value >= 0
  }

  /** Without a readable file numbering starts at 1, over any number of restarts that find the file up to date. */
  lemma FreshStartsAtOne(file: Option<string>, actions: seq<Action>)
    requires !Readable(file) && RestartsDurably(Start(file), actions)
    ensures forall k | 0 <= k < |Run(Start(file), actions).accepted| :: Run(Start(file), actions).accepted[k] == k + 1
  {
    NumbersSurviveRestarts(file, actions);
  }
}
