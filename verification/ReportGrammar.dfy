/**
 What the report grammar of the command handlers means, said about the reported statuses
 themselves, and what the percentages of a drain look like.
 */
module ReportGrammar {
  import opened Reports
  import opened Commands

  /** The statuses a trace reports, in order. */
  function Statuses(t: Trace): seq<Status> {
    if t == [] then []
    else
      Statuses(t[..|t| - 1]) +
      match t[|t| - 1]
      case Told(status, _) => [status]
      case _ => []
  }

  /** The statuses that lead to a stage. */
  ghost predicate Shape(st: seq<Status>, stage: Stage, dryRunFirst: bool) {
    var last := |st| - 1;
    && (stage == Start <==> st == [])
    && (st != [] ==> st[0] == Validating)
    && (stage == Ready ==> |st| == 1)
    && (stage == Ended ==> last >= 1 && IsTerminal(st[last]))
    && (forall i | 0 <= i < |st| && IsTerminal(st[i]) :: stage == Ended && i == last)
    && (forall i | 0 < i < |st| :: st[i] != Validating && st[i] != Received)
    && (stage == Dried ==> st[last] == DryRun)
    && (DryRun in st ==> dryRunFirst)
    && (st != [] && st[last] == DryRun ==> stage == Dried)
    && (forall i, j | 0 <= i < j < |st| && j == i + 1 && st[i] == DryRun :: st[j] == Applying)
    && (forall i, j | 0 <= i < j < |st| && j == i + 1 && st[j] == Applying && dryRunFirst :: st[i] == DryRun)
    && (stage == Writing || stage == Dried ==> Progress !in st)
    && (stage == Moving ==> Applying !in st && st[last] == Progress)
    && (Applying in st ==> Progress !in st)
  }

  lemma ShapeGrows(st: seq<Status>, stage: Stage, status: Status, dryRunFirst: bool)
    requires Shape(st, stage, dryRunFirst) && After(stage, status, dryRunFirst) != Broken
    ensures Shape(st + [status], After(stage, status, dryRunFirst), dryRunFirst)
  {
    assert forall i | 0 <= i < |st| :: (st + [status])[i] == st[i];
  }

  lemma {:induction false} ScanShape(t: Trace, dryRunFirst: bool)
    requires Scan(t, dryRunFirst) != Broken
    ensures Shape(Statuses(t), Scan(t, dryRunFirst), dryRunFirst)
  {
    if t != [] {
      var n := |t| - 1;
      ScanShape(t[..n], dryRunFirst);
      if t[n].Told? {
        ShapeGrows(Statuses(t[..n]), Scan(t[..n], dryRunFirst), t[n].status, dryRunFirst);
      } else {
        assert Statuses(t) == Statuses(t[..n]);
      }
    }
  }

  /**
   A finished command reported `validating` first and one terminal status last and nowhere else;
   with dry-run-first each `applying` comes right after its `dry-run`, and each `dry-run` right
   before its `applying`; a command that writes objects reports no progress.
   */
  lemma FinishedReports(t: Trace, dryRunFirst: bool)
    requires Finished(t, dryRunFirst)
    ensures var st := Statuses(t);
            && |st| >= 2 && st[0] == Validating && st[|st| - 1] in [Succeeded, Failed, RefusedStatus]
            && (forall i | 0 <= i < |st| - 1 :: st[i] !in [Succeeded, Failed, RefusedStatus])
            && (DryRun in st ==> dryRunFirst) && st[|st| - 1] != DryRun
            && (forall i, j | 0 <= i < j < |st| && j == i + 1 && st[i] == DryRun :: st[j] == Applying)
            && (forall i, j | 0 <= i < j < |st| && j == i + 1 && st[j] == Applying && dryRunFirst :: st[i] == DryRun)
            && (Applying in st ==> Progress !in st)
  {
    ScanShape(t, dryRunFirst);
  }

  /** A paused drain reported nothing terminal. */
  lemma PausedReports(t: Trace, dryRunFirst: bool)
    requires Paused(t, dryRunFirst)
    ensures var st := Statuses(t);
            && st != [] && st[|st| - 1] == Progress && Applying !in st
            && forall i | 0 <= i < |st| :: st[i] !in [Succeeded, Failed, RefusedStatus]
  {
    ScanShape(t, dryRunFirst);
  }

  lemma {:induction false} StepsClimb(done: nat, total: nat)
    requires done <= total && 0 < total
    ensures var p := Steps(done, total);
            && |p| == done
            && (forall i | 0 <= i < done :: 0 <= p[i] == (i + 1) * 100 / total <= done * 100 / total)
            && (forall i, j | 0 <= i < j < done :: p[i] <= p[j])
            && (forall i | 0 <= i < done :: p[i] == 100 <==> i + 1 == total)
  {
    PercentBounds(done, total);
    if done > 0 {
      StepsClimb(done - 1, total);
      var before := Steps(done - 1, total);
      forall i | 0 <= i < done - 1 ensures before[i] <= Percent(done, total) {
        QuotientClimbs((i + 1) * 100, done * 100, total);
      }
    }
  }

  /**
   Drain progress climbs within 0..100 and reaches 100 exactly with the last pod, also when the
   drain stalls and reports where it stands once more.
   */
  lemma ProgressClimbs(done: nat, total: nat, stalled: bool)
    requires done <= total && 0 < total && (stalled ==> done < total)
    ensures var p := Steps(done, total) + if stalled then [done * 100 / total] else [];
            && |p| == done + (if stalled then 1 else 0)
            && (forall i | 0 <= i < |p| :: 0 <= p[i] <= 100)
            && (forall i | 0 <= i < done :: p[i] == (i + 1) * 100 / total)
            && (forall i, j | 0 <= i < j < |p| :: p[i] <= p[j])
            && (forall i | 0 <= i < |p| :: p[i] == 100 <==> i + 1 == done == total)
  {
    StepsClimb(done, total);
    PercentBounds(done, total);
  }

  lemma PercentBounds(done: nat, total: nat)
    requires done <= total && 0 < total
    ensures Percent(done, total) <= 100 && (Percent(done, total) == 100 <==> done == total)
  {
    if done < total {
      QuotientBelow(done * 100, 100, total);
    } else {
      QuotientBelow(done * 100, 101, total);
      QuotientAtLeast(done * 100, 100, total);
    }
  }

  lemma QuotientAtLeast(a: nat, c: nat, d: nat)
    requires c * d <= a && 0 < d
    ensures c <= a / d
  {
    assert a < (a / d + 1) * d;
    if a / d < c {
      TimesClimbs(a / d + 1, c, d);
    }
  }

  lemma TimesClimbs(a: nat, b: nat, d: nat)
    requires a <= b
    ensures a * d <= b * d
  {
  }

  lemma QuotientClimbs(a: nat, b: nat, d: nat)
    requires a <= b && 0 < d
    ensures a / d <= b / d
  {
    assert b < (b / d + 1) * d;
    QuotientBelow(a, b / d + 1, d);
  }

  lemma QuotientBelow(a: nat, c: nat, d: nat)
    requires a < c * d && 0 < d
    ensures a / d < c
  {
    assert a == a / d * d + a % d;
  }
}
