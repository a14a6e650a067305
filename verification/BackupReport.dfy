/**
 * What status says of the backups, and that saying it never forgets the restore.
 */
module BackupReport {
  import opened Basics
  import J = Jobs
  import R = Restore

  /** How many dumps status lists. */
  const MAX_DUMPS := 50

  /** What a backup's report says, when it can be read: the dump written, and those kept. */
  datatype Summary = Summary(dump: string, kept: seq<string>)

  /** A backup's Job as it is listed. */
  datatype Run = Run(name: string, outcome: J.Outcome, summary: Option<Summary>)

  datatype Status = Status(restore: Option<R.Status>, job: string, lastSuccess: Option<Time>,
                           lastFailure: Option<Time>, lastDump: string, dumps: seq<string>)

  function RestoreOf(b: Option<Status>): Option<R.Status> {
    if b.Some? then b.value.restore else None
  }

  function LaterOf(a: Option<Time>, at: Time): Option<Time> {
    if a.None? || a.value < at then Some(at) else a
  }

  /** The latest of a time and when the runs with that outcome ended. */
  function LatestEnd(before: Option<Time>, runs: seq<Run>, success: bool): Option<Time> {
    if runs == [] then before
    else
      var so := LatestEnd(before, runs[..|runs| - 1], success);
      match runs[|runs| - 1].outcome
      case Unfinished => so
      case Complete(at) => if success then LaterOf(so, at) else so
      case Failed(at) => if success then so else LaterOf(so, at)
  }

  function EndOf(r: Run, success: bool): Option<Time> {
    match r.outcome
    case Unfinished => None
    case Complete(at) => if success then Some(at) else None
    case Failed(at) => if success then None else Some(at)
  }

  /** Never earlier than it was, nor than any of the runs, and one of these. */
  lemma {:induction false} LatestEndIsLatest(before: Option<Time>, runs: seq<Run>, success: bool)
    ensures var end := LatestEnd(before, runs, success);
            && (before.Some? ==> end.Some? && before.value <= end.value)
            && (forall i | 0 <= i < |runs| && EndOf(runs[i], success).Some? :: end.Some? && EndOf(runs[i], success).value <= end.value)
            && (end == before || exists i :: 0 <= i < |runs| && end == EndOf(runs[i], success))
  {
    if runs != [] {
      var n := |runs| - 1;
      LatestEndIsLatest(before, runs[..n], success);
      assert forall i | 0 <= i < n :: runs[..n][i] == runs[i];
    }
  }

  /** Run i succeeded later than anything known when the list gets to it. */
  predicate Improves(before: Option<Time>, runs: seq<Run>, i: nat)
    requires i < |runs|
  {
    var so := LatestEnd(before, runs[..i], true);
    runs[i].outcome.Complete? && (so.None? || so.value < runs[i].outcome.at)
  }

  /** The report that is published: the last readable one of the runs that improve on what was known. */
  function Published(before: Option<Time>, runs: seq<Run>): Option<Summary> {
    if runs == [] then None
    else
      var n := |runs| - 1;
      if Improves(before, runs, n) && runs[n].summary.Some? then runs[n].summary else Published(before, runs[..n])
  }

  lemma PrefixImproves(before: Option<Time>, runs: seq<Run>, n: nat)
    requires n <= |runs|
    ensures forall i | 0 <= i < n :: Improves(before, runs[..n], i) == Improves(before, runs, i) && runs[..n][i] == runs[i]
  {
    forall i | 0 <= i < n
      ensures Improves(before, runs[..n], i) == Improves(before, runs, i)
    {
      assert runs[..n][..i] == runs[..i];
    }
  }

  /** Run i is the last of those that improve whose report can be read. */
  predicate LastReadable(before: Option<Time>, runs: seq<Run>, i: nat)
    requires i < |runs|
  {
    && Improves(before, runs, i) && runs[i].summary.Some?
    && forall j | i < j < |runs| && Improves(before, runs, j) :: runs[j].summary.None?
  }

  /** What is published is that run's report, and nothing new if and only if there is no such run. */
  lemma {:induction false} PublishesLastReadable(before: Option<Time>, runs: seq<Run>)
    ensures Published(before, runs).None? ==> forall i | 0 <= i < |runs| && Improves(before, runs, i) :: runs[i].summary.None?
    ensures Published(before, runs).Some? ==> exists i :: 0 <= i < |runs| && LastReadable(before, runs, i) && Published(before, runs) == runs[i].summary
  {
    hide Improves;
    if runs != [] {
      var n := |runs| - 1;
      PublishesLastReadable(before, runs[..n]);
      PrefixImproves(before, runs, n);
      if Improves(before, runs, n) && runs[n].summary.Some? {
        assert LastReadable(before, runs, n);
      } else if Published(before, runs).Some? {
        var i :| 0 <= i < n && LastReadable(before, runs[..n], i) && Published(before, runs[..n]) == runs[..n][i].summary;
        assert LastReadable(before, runs, i);
      }
    }
  }

  /** There is one such run at the most, so that run's report is the one published. */
  lemma LastReadableIsPublished(before: Option<Time>, runs: seq<Run>, i: nat)
    requires i < |runs| && LastReadable(before, runs, i)
    ensures Published(before, runs) == runs[i].summary
  {
    hide Improves;
    PublishesLastReadable(before, runs);
    var j :| 0 <= j < |runs| && LastReadable(before, runs, j) && Published(before, runs) == runs[j].summary;
    assert i == j;
  }

  /** None after the latest success improves on it. */
  lemma NoneImprovesOn(before: Option<Time>, runs: seq<Run>, i: nat, j: nat)
    requires i < j < |runs| && runs[i].outcome.Complete? && Some(runs[i].outcome.at) == LatestEnd(before, runs, true)
    ensures !Improves(before, runs, j)
  {
    LatestEndIsLatest(before, runs[..j], true);
    LatestEndIsLatest(before, runs, true);
    assert EndOf(runs[..j][i], true) == EndOf(runs[j], true) || EndOf(runs[..j][i], true) == Some(runs[i].outcome.at);
    assert runs[j].outcome.Complete? ==> EndOf(runs[j], true) == Some(runs[j].outcome.at);
  }

  /**
   * The latest success is the run whose report is published if and only if its report can
   * be read; otherwise what is published, if anything, is the report of one that ended earlier.
   */
  lemma LatestIsPublishedIff(before: Option<Time>, runs: seq<Run>, i: nat)
    requires i < |runs| && Improves(before, runs, i) && Some(runs[i].outcome.at) == LatestEnd(before, runs, true)
    ensures LastReadable(before, runs, i) <==> runs[i].summary.Some?
    ensures runs[i].summary.Some? ==> Published(before, runs) == runs[i].summary
    ensures runs[i].summary.None? && Published(before, runs).Some? ==>
              exists j :: 0 <= j < i && LastReadable(before, runs, j) && Published(before, runs) == runs[j].summary
                          && runs[j].outcome.at < runs[i].outcome.at
  {
    hide LatestEnd, Published;
    forall j | i < j < |runs|
      ensures !Improves(before, runs, j)
    {
      NoneImprovesOn(before, runs, i, j);
    }
    if runs[i].summary.Some? {
      LastReadableIsPublished(before, runs, i);
    } else if Published(before, runs).Some? {
      PublishesLastReadable(before, runs);
      var j :| 0 <= j < |runs| && LastReadable(before, runs, j) && Published(before, runs) == runs[j].summary;
      EndedEarlier(before, runs, j, i);
    }
  }

  lemma EndedEarlier(before: Option<Time>, runs: seq<Run>, j: nat, i: nat)
    requires j < i < |runs| && runs[j].outcome.Complete? && Improves(before, runs, i)
    ensures runs[j].outcome.at < runs[i].outcome.at
  {
    LatestEndIsLatest(before, runs[..i], true);
    assert EndOf(runs[..i][j], true) == Some(runs[j].outcome.at);
  }

  /** The inputs that fail: a run that succeeds later than any known, its report unreadable. */
  lemma UnreadableIsNamed(before: Option<Time>, name: string, at: Time)
    requires before.None? || before.value < at
    ensures var runs := [Run(name, J.Complete(at), None)];
            LatestEnd(before, runs, true) == Some(at) && Published(before, runs).None?
  {
    var runs := [Run(name, J.Complete(at), None)];
    assert runs[..0] == [];
    assert LatestEnd(before, runs[..0], true) == before;
  }

  // ---- over many passes ----

  /** The last success known, and the report published last. */
  datatype Known = Known(lastSuccess: Option<Time>, report: Option<Summary>)

  function Reads(k: Known, runs: seq<Run>): Known {
    var published := Published(k.lastSuccess, runs);
    Known(LatestEnd(k.lastSuccess, runs, true), if published.Some? then published else k.report)
  }

  /** What is known after passes that find these lists. */
  function ReadsAll(k: Known, lists: seq<seq<Run>>): Known
    decreases |lists|
  {
    if lists == [] then k else ReadsAll(Reads(k, lists[0]), lists[1..])
  }

  /** Whatever else a later list holds, a run no later than the last success known is not read. */
  lemma NeverReadAgain(before: Option<Time>, later: seq<Run>, i: nat)
    requires i < |later| && later[i].outcome.Complete? && before.Some? && later[i].outcome.at <= before.value
    ensures !Improves(before, later, i)
  {
    LatestEndIsLatest(before, later[..i], true);
  }

  predicate Later(r: Run, t: Option<Time>) {
    r.outcome.Complete? && (t.None? || t.value < r.outcome.at)
  }

  /** One list: something changes if and only if it holds a later success. */
  lemma ReadsIff(k: Known, runs: seq<Run>)
    ensures Reads(k, runs) != k <==> exists i :: 0 <= i < |runs| && Later(runs[i], k.lastSuccess)
    ensures Reads(k, runs) != k ==> Reads(k, runs).lastSuccess != k.lastSuccess
  {
    LatestEndIsLatest(k.lastSuccess, runs, true);
    if i :| 0 <= i < |runs| && Later(runs[i], k.lastSuccess) {
      assert EndOf(runs[i], true) == Some(runs[i].outcome.at);
    } else {
      forall i | 0 <= i < |runs|
        ensures !Improves(k.lastSuccess, runs, i)
      {
        LatestEndIsLatest(k.lastSuccess, runs[..i], true);
      }
      PublishesLastReadable(k.lastSuccess, runs);
      if end :| 0 <= end < |runs| && LatestEnd(k.lastSuccess, runs, true) == EndOf(runs[end], true) && EndOf(runs[end], true).Some? {
        assert !Later(runs[end], k.lastSuccess);
      }
    }
  }

  /**
   * Over every run of passes, whatever lists they find and whatever can be read by then:
   * status stays as it is, the older dump beside the last success with it, if and only if
   * none of them finds a success later than the last one known.
   */
  lemma {:induction false} OlderDumpStaysIff(k: Known, lists: seq<seq<Run>>)
    ensures ReadsAll(k, lists) == k <==>
            forall n, i | 0 <= n < |lists| && 0 <= i < |lists[n]| :: !Later(lists[n][i], k.lastSuccess)
    ensures k.lastSuccess.Some? ==> ReadsAll(k, lists).lastSuccess.Some? && k.lastSuccess.value <= ReadsAll(k, lists).lastSuccess.value
    ensures ReadsAll(k, lists) != k ==> ReadsAll(k, lists).lastSuccess != k.lastSuccess
    decreases |lists|
  {
    hide Published, LatestEnd, Later;
    if lists != [] {
      ReadsIff(k, lists[0]);
      LatestEndIsLatest(k.lastSuccess, lists[0], true);
      OlderDumpStaysIff(Reads(k, lists[0]), lists[1..]);
      if Reads(k, lists[0]) == k {
        assert forall n | 0 < n < |lists| :: lists[n] == lists[1..][n - 1];
      }
    }
  }

  function Cut(dumps: seq<string>): seq<string> {
    if |dumps| > MAX_DUMPS then dumps[..MAX_DUMPS] else dumps
  }

  /** The newest fifty of the dumps kept. */
  lemma CutIs(dumps: seq<string>)
    ensures Cut(dumps) <= dumps && |Cut(dumps)| == if |dumps| < 50 then |dumps| else 50
  {
  }

  class Zaentrum {
    var backup: Option<Status>

    constructor (backup: Option<Status>)
      ensures this.backup == backup
    {
      this.backup := backup;
    }

    /**
     * Reads the backups' Jobs, newest first, where they could be listed. Whatever the
     * databases' mode and whether backups are rendered, the restore stays as it is.
     */
    method ReportBackups(bundled: bool, rendered: bool, listed: Option<seq<Run>>)
      modifies this
      ensures RestoreOf(backup) == old(RestoreOf(backup))
      ensures !bundled ==> backup == (if old(RestoreOf(backup)).None? then None
                                      else Some(Status(old(RestoreOf(backup)), "", None, None, "", [])))
      ensures bundled && (!rendered || listed.None?) ==> backup == old(backup)
      ensures bundled && rendered && listed.Some? ==>
                var runs, was := listed.value, if old(backup).Some? then old(backup).value else Status(None, "", None, None, "", []);
                var published := Published(was.lastSuccess, runs);
                && backup.Some?
                && backup.value.job == (if runs == [] then was.job else runs[0].name)
                && backup.value.lastSuccess == LatestEnd(was.lastSuccess, runs, true)
                && backup.value.lastFailure == LatestEnd(was.lastFailure, runs, false)
                && backup.value.lastDump == (if published.Some? then published.value.dump else was.lastDump)
                && backup.value.dumps == (if published.Some? then Cut(published.value.kept) else was.dumps)
    {
      if !bundled {
        backup := if backup.Some? && backup.value.restore.Some? then Some(Status(backup.value.restore, "", None, None, "", [])) else None;
        return;
      }
      if !rendered || listed.None? { return; }
      var runs := listed.value;
      var b := if backup.Some? then backup.value else Status(None, "", None, None, "", []);
      ghost var start := b;
      if |runs| > 0 { b := b.(job := runs[0].name); }
      for i := 0 to |runs|
        invariant b.restore == start.restore && b.job == if runs == [] then start.job else runs[0].name
        invariant b.lastSuccess == LatestEnd(start.lastSuccess, runs[..i], true)
        invariant b.lastFailure == LatestEnd(start.lastFailure, runs[..i], false)
        invariant var published := Published(start.lastSuccess, runs[..i]);
                  && b.lastDump == (if published.Some? then published.value.dump else start.lastDump)
                  && b.dumps == (if published.Some? then Cut(published.value.kept) else start.dumps)
      {
        assert runs[..i + 1][..i] == runs[..i];
        var run := runs[i];
        match run.outcome {
          case Unfinished =>
          case Complete(at) =>
            if b.lastSuccess.None? || b.lastSuccess.value < at {
              b := b.(lastSuccess := Some(at));
              if run.summary.Some? { b := b.(lastDump := run.summary.value.dump, dumps := Cut(run.summary.value.kept)); }
            }
          case Failed(at) =>
            if b.lastFailure.None? || b.lastFailure.value < at { b := b.(lastFailure := Some(at)); }
        }
      }
      assert runs[..|runs|] == runs;
      backup := Some(b);
    }
  }
}
