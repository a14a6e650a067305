/**
 * The verdict of a verification run, read from its report.
 */
module Report {
  import opened Basics
  import opened Sorting

  datatype Status = Passes | Warns | Fails | Skips

  datatype Check = Check(name: string, status: Status, detail: string)

  /** A check as the report writes it, spaces around and case aside. */
  datatype Line = Line(n: string, s: string, d: string)

  /** What the report's JSON holds; `size` is its length in bytes. */
  datatype Raw = NoReport | NotJson(size: nat)
    | Json(size: nat, v: int, passed: int, failed: int, warned: int, skipped: int, lines: seq<Line>)

  datatype Doctor = Doctor(passed: int, failed: int, warned: int, skipped: int, checks: seq<Check>)

  const MAX_REPORT: nat := 65536
  const VERSION := 1
  const MAX_CHECKS: nat := 40

  // ---- 32-bit counts ----

  const MAX32 := 0x7fff_ffff

  predicate Fits32(x: int) {
    -0x8000_0000 <= x <= MAX32
  }

  /** Go's int32 addition. */
  function Add32(a: int, b: int): (r: int)
    requires Fits32(a) && Fits32(b)
    ensures Fits32(r)
  {
    if a + b > MAX32 then a + b - 0x1_0000_0000
    else if a + b < -0x8000_0000 then a + b + 0x1_0000_0000 else a + b
  }

  /** The sum of any 32-bit numbers, wrapped around once over. */
  lemma SumWraps(a: int, b: int, c: int, d: int)
    requires Fits32(a) && Fits32(b) && Fits32(c) && Fits32(d)
    ensures Add32(Add32(Add32(a, b), c), d) == (a + b + c + d + 2147483648) % 4294967296 - 2147483648
  {
    hide Add32;
    var ab := Add32(a, b);
    var abc := Add32(ab, c);
    var abcd := Add32(abc, d);
    var k := AddWraps(a, b);
    var l := AddWraps(ab, c);
    var m := AddWraps(abc, d);
    assert abcd == a + b + c + d + (k + l + m) * 4294967296;
  }

  lemma AddWraps(a: int, b: int) returns (k: int)
    requires Fits32(a) && Fits32(b)
    ensures Add32(a, b) == a + b + k * 4294967296
  {
    k := if Add32(a, b) == a + b then 0 else if Add32(a, b) < a + b then -1 else 1;
  }

  /** A 32-bit sum of counts may wrap around, but never past what they really add up to. */
  lemma SumNeverExceeds(a: int, b: int, c: int, d: int)
    requires 0 <= a <= MAX32 && 0 <= b <= MAX32 && 0 <= c <= MAX32 && 0 <= d <= MAX32
    ensures Add32(Add32(Add32(a, b), c), d) <= a + b + c + d
  {
    var ab := Add32(a, b);
    var abc := Add32(ab, c);
    assert ab <= a + b && abc <= a + b + c;
  }

  // ---- parsing ----

  /** JSON holds an object of 32-bit counts, and a check takes more than a byte of it. */
  predicate WellFormed(raw: Raw) {
    raw.Json? ==>
      && Fits32(raw.passed) && Fits32(raw.failed) && Fits32(raw.warned) && Fits32(raw.skipped)
      && |raw.lines| <= raw.size
  }

  function StatusOf(s: string): Option<Status> {
    match s
    case "ok" => Some(Passes)
    case "warn" => Some(Warns)
    case "fail" => Some(Fails)
    case "skip" => Some(Skips)
    case _ => None
  }

  lemma StatusIs(s: string)
    ensures StatusOf(s) == Some(Passes) <==> s == "ok"
    ensures StatusOf(s) == Some(Warns) <==> s == "warn"
    ensures StatusOf(s) == Some(Fails) <==> s == "fail"
    ensures StatusOf(s) == Some(Skips) <==> s == "skip"
    ensures StatusOf(s).Some? <==> s in {"ok", "warn", "fail", "skip"}
  {
  }

  predicate Readable(line: Line) {
    line.n != "" && StatusOf(line.s).Some?
  }

  /** Strictly: one bad count, name or status and nothing is read. */
  method ParseReport(raw: Raw) returns (rep: Option<Doctor>)
    requires WellFormed(raw)
    ensures rep.Some? <==> Parses(raw)
    ensures rep.Some? ==> rep.value == Parsed(raw)
  {
    if !raw.Json? || raw.size > MAX_REPORT || raw.v != VERSION { return None; }
    if raw.passed < 0 || raw.failed < 0 || raw.warned < 0 || raw.skipped < 0 { return None; }
    var checks: seq<Check> := [];
    for i := 0 to |raw.lines|
      invariant |checks| == i
      invariant forall j | 0 <= j < i :: Readable(raw.lines[j]) && checks[j] == ReadLine(raw.lines[j])
    {
      var line := raw.lines[i];
      if line.n == "" { return None; }
      var status := StatusOf(line.s);
      if status.None? { return None; }
      checks := checks + [Check(line.n, status.value, line.d)];
    }
    rep := Some(Doctor(raw.passed, raw.failed, raw.warned, raw.skipped, checks));
  }

  predicate Parses(raw: Raw) {
    && raw.Json? && raw.size <= MAX_REPORT && raw.v == VERSION
    && 0 <= raw.passed && 0 <= raw.failed && 0 <= raw.warned && 0 <= raw.skipped
    && forall j | 0 <= j < |raw.lines| :: Readable(raw.lines[j])
  }

  function ReadLine(line: Line): Check
    requires Readable(line)
  {
    Check(line.n, StatusOf(line.s).value, line.d)
  }

  function Parsed(raw: Raw): Doctor
    requires Parses(raw)
  {
    Doctor(raw.passed, raw.failed, raw.warned, raw.skipped,
           seq(|raw.lines|, i requires 0 <= i < |raw.lines| => ReadLine(raw.lines[i])))
  }

  /** Which reports are read, and what is made of them. */
  lemma ParsesIff(raw: Raw)
    ensures Parses(raw) <==>
              && raw.Json? && raw.size <= 65536 && raw.v == 1
              && 0 <= raw.passed && 0 <= raw.failed && 0 <= raw.warned && 0 <= raw.skipped
              && forall i | 0 <= i < |raw.lines| :: raw.lines[i].n != "" && raw.lines[i].s in {"ok", "warn", "fail", "skip"}
    ensures Parses(raw) ==>
              var rep := Parsed(raw);
              && rep.passed == raw.passed && rep.failed == raw.failed && rep.warned == raw.warned && rep.skipped == raw.skipped
              && |rep.checks| == |raw.lines|
              && forall i | 0 <= i < |raw.lines| ::
                   && rep.checks[i].name == raw.lines[i].n && rep.checks[i].detail == raw.lines[i].d
                   && (rep.checks[i].status == Fails <==> raw.lines[i].s == "fail")
                   && (rep.checks[i].status == Warns <==> raw.lines[i].s == "warn")
                   && (rep.checks[i].status == Passes <==> raw.lines[i].s == "ok")
  {
    hide StatusOf;
    forall s
      ensures StatusOf(s).Some? <==> s in {"ok", "warn", "fail", "skip"}
      ensures (StatusOf(s) == Some(Fails) <==> s == "fail") && (StatusOf(s) == Some(Warns) <==> s == "warn")
      ensures StatusOf(s) == Some(Passes) <==> s == "ok"
    {
      StatusIs(s);
    }
  }

  // ---- keeping the checks that matter ----

  function Rank(s: Status): int {
    match s
    case Fails => 0
    case Warns => 1
    case _ => 2
  }

  /** Position i of the checks is kept rather than position j. */
  predicate Outranks(all: seq<Check>, i: int, j: int)
    requires 0 <= i < |all| && 0 <= j < |all|
  {
    Rank(all[i].status) < Rank(all[j].status) || (Rank(all[i].status) == Rank(all[j].status) && i < j)
  }

  predicate Within(keep: seq<int>, n: nat) {
    forall k | 0 <= k < |keep| :: 0 <= keep[k] < n
  }

  /** The positions kept: in report order, and none left out that outranks one of them. */
  ghost predicate Best(all: seq<Check>, keep: seq<int>) {
    && Increases(keep) && Within(keep, |all|)
    && forall i, j | i in keep && 0 <= i < |all| && 0 <= j < |all| && j !in keep :: Outranks(all, i, j)
  }

  /** No check is left out for a milder one, nor for one as grave that comes later in the report. */
  lemma GraverAreKept(all: seq<Check>, keep: seq<int>, i: int, j: int)
    requires Best(all, keep) && i in keep && 0 <= i < |all| && 0 <= j < |all| && j !in keep
    ensures all[j].status == Fails ==> all[i].status == Fails && i < j
    ensures all[j].status == Warns ==> all[i].status == Fails || (all[i].status == Warns && i < j)
    ensures all[j].status == Passes || all[j].status == Skips ==> all[i].status == Fails || all[i].status == Warns || i < j
  {
    assert Outranks(all, i, j);
  }

  function Pick(all: seq<Check>, keep: seq<int>): seq<Check>
    requires Within(keep, |all|)
  {
    seq(|keep|, k requires 0 <= k < |keep| => all[keep[k]])
  }

  function RankAt(all: seq<Check>): int -> int {
    i => if 0 <= i < |all| then Rank(all[i].status) else 0
  }

  function Earlier(): (int, int) -> bool {
    (i, j) => i < j
  }

  /** Keeps n checks or all of them, the graver before the milder and the order the report's; counts the rest. */
  method KeepChecks(all: seq<Check>, n: nat) returns (kept: seq<Check>, dropped: nat, ghost keep: seq<int>)
    ensures Best(all, keep) && kept == Pick(all, keep)
    ensures |kept| == |keep| == (if |all| <= n then |all| else n) && dropped == |all| - |kept|
  {
    if |all| <= n {
      AllAreBest(all);
      return all, 0, Positions(|all|);
    }
    hide *;
    var order := BestPositions(all, n);
    keep := order;
    BestWithin(all, keep);
    kept := [];
    for i := 0 to n
      invariant |kept| == i && forall k | 0 <= k < i :: kept[k] == all[keep[k]]
    {
      kept := kept + [all[order[i]]];
    }
    IsPick(all, keep, kept);
    dropped := |all| - n;
  }

  lemma IsPick(all: seq<Check>, keep: seq<int>, kept: seq<Check>)
    requires Within(keep, |all|) && |kept| == |keep| && forall k | 0 <= k < |keep| :: kept[k] == all[keep[k]]
    ensures kept == Pick(all, keep)
  {
  }

  /** The positions sorted by rank, and the first n of them put back in order. */
  method BestPositions(all: seq<Check>, n: nat) returns (keep: seq<int>)
    requires n <= |all|
    ensures Best(all, keep) && Within(keep, |all|) && |keep| == n
  {
    hide *;
    var order := new int[|all|](i => i);
    InOrder(order[..]);
    StableSortInPlace(order, RankAt(all));
    FirstAreBest(all, n);
    SortPrefix(order, n, Earlier());
    keep := order[..n];
    BestWithin(all, keep);
  }

  lemma InOrder(order: seq<int>)
    requires forall i | 0 <= i < |order| :: order[i] == i
    ensures order == Positions(|order|)
  {
  }

  lemma AllAreBest(all: seq<Check>)
    ensures Best(all, Positions(|all|)) && Pick(all, Positions(|all|)) == all
  {
    forall j | 0 <= j < |all|
      ensures j in Positions(|all|)
    {
      assert Positions(|all|)[j] == j;
    }
  }

  lemma BestWithin(all: seq<Check>, keep: seq<int>)
    requires Best(all, keep)
    ensures Within(keep, |all|)
  {
  }

  /** The first n by rank, put back into report order. */
  lemma FirstAreBest(all: seq<Check>, n: nat)
    requires n <= |all|
    ensures |StableSort(Positions(|all|), RankAt(all))| == |all|
    ensures var keep := SortBy(StableSort(Positions(|all|), RankAt(all))[..n], Earlier());
            Best(all, keep) && |keep| == n
  {
    hide StableSort, SortBy, Positions;
    var order := StableSort(Positions(|all|), RankAt(all));
    PositionsPermuted(|all|, RankAt(all));
    var first := order[..n];
    var keep := SortBy(first, Earlier());
    SortByLength(first, Earlier());
    FirstIncrease(first);
    forall i
      ensures i in keep <==> i in first
    {
      assert i in multiset(keep) <==> i in multiset(first);
    }
    assert Within(keep, |all|) by {
      assert forall k | 0 <= k < |keep| :: keep[k] in first;
      assert forall k | 0 <= k < n :: first[k] in order;
    }
    forall i, j | i in keep && 0 <= i < |all| && 0 <= j < |all| && j !in keep
      ensures Outranks(all, i, j)
    {
      assert i in first && j in order;
      var p :| 0 <= p < n && first[p] == i;
      var q :| 0 <= q < |all| && order[q] == j;
      assert forall k | 0 <= k < n :: first[k] in keep;
      SortedPositions(|all|, RankAt(all), p, q);
    }
  }

  lemma FirstIncrease(first: seq<int>)
    requires NoDuplicates(first)
    ensures Increases(SortBy(first, Earlier()))
  {
    var all := set i | i in first;
    SortByAscends(first, Earlier(), all);
    var keep := SortBy(first, Earlier());
    assert forall i, j | 0 <= i < j < |keep| :: Earlier()(keep[i], keep[j]);
  }

  /** Each position once. */
  lemma PositionsPermuted(n: nat, rank: int -> int)
    ensures var order := StableSort(Positions(n), rank);
            |order| == n && NoDuplicates(order) && forall i :: i in order <==> 0 <= i < n
  {
    var order := StableSort(Positions(n), rank);
    SortsStably(Positions(n), rank);
    forall i
      ensures i in order <==> 0 <= i < n
    {
      assert i in multiset(order) <==> i in multiset(Positions(n));
      assert 0 <= i < n ==> Positions(n)[i] == i;
    }
    forall p, q | 0 <= p < q < n
      ensures order[p] != order[q]
    {
      SortedPositions(n, rank, p, q);
    }
  }

  // ---- the verdict ----

  function Count(checks: seq<Check>, s: Status): nat {
    if checks == [] then 0 else Count(checks[..|checks| - 1], s) + if checks[|checks| - 1].status == s then 1 else 0
  }

  lemma {:induction false} CountsAddUp(checks: seq<Check>)
    ensures Count(checks, Passes) + Count(checks, Warns) + Count(checks, Fails) + Count(checks, Skips) == |checks|
  {
    if checks != [] { CountsAddUp(checks[..|checks| - 1]); }
  }

  lemma {:induction false} CountsFailing(checks: seq<Check>)
    ensures Count(checks, Fails) > 0 <==> exists i :: 0 <= i < |checks| && checks[i].status == Fails
  {
    if checks != [] {
      var last := |checks| - 1;
      CountsFailing(checks[..last]);
      assert forall i | 0 <= i < last :: checks[..last][i] == checks[i];
    }
  }

  lemma CountNothing(checks: seq<Check>)
    ensures forall s :: Count(checks[..0], s) == 0
  {
  }

  /** One more check, counted in 32 bits: no list is long enough to wrap. */
  lemma CountNext(checks: seq<Check>, i: nat)
    requires i < |checks| <= MAX_REPORT
    ensures forall s :: Fits32(Count(checks[..i], s)) &&
              Count(checks[..i + 1], s) == if s == checks[i].status then Add32(Count(checks[..i], s), 1) else Count(checks[..i], s)
  {
    assert checks[..i + 1][..i] == checks[..i];
    CountsAddUp(checks[..i]);
    forall s
      ensures Count(checks[..i], s) <= i
    {
      match s case Passes => case Warns => case Fails => case Skips =>
    }
  }

  /** The counts account for the checks listed, as 32-bit numbers, and hide no failure among them. */
  predicate Trusted(rep: Doctor)
    requires 0 <= rep.passed <= MAX32 && 0 <= rep.failed <= MAX32 && 0 <= rep.warned <= MAX32 && 0 <= rep.skipped <= MAX32
  {
    && |rep.checks| <= Add32(Add32(Add32(rep.passed, rep.warned), rep.failed), rep.skipped)
    && (rep.failed > 0 || Count(rep.checks, Fails) == 0)
  }

  /** When a report's own counts are published: its sum, wrapped around, covers the list, and hides no failure. */
  lemma TrustedIff(rep: Doctor)
    requires 0 <= rep.passed <= MAX32 && 0 <= rep.failed <= MAX32 && 0 <= rep.warned <= MAX32 && 0 <= rep.skipped <= MAX32
    ensures Trusted(rep) <==>
              && |rep.checks| <= (rep.passed + rep.warned + rep.failed + rep.skipped + 2147483648) % 4294967296 - 2147483648
              && (rep.failed == 0 ==> forall i | 0 <= i < |rep.checks| :: rep.checks[i].status != Fails)
  {
    hide Add32;
    SumWraps(rep.passed, rep.warned, rep.failed, rep.skipped);
    CountsFailing(rep.checks);
  }

  datatype Result = Unjudged | Passed | Failed | Error

  /** What a finished run leaves behind: its container's end and exit code, if any, and its report. */
  datatype Outcome = Outcome(ran: bool, exitCode: int, report: Raw)

  class Verification {
    var result: Result
    var passed: int
    var warned: int
    var failed: int
    var skipped: int
    var checks: seq<Check>

    constructor ()
      ensures result == Unjudged && passed == warned == failed == skipped == 0 && checks == []
    {
      result, passed, warned, failed, skipped, checks := Unjudged, 0, 0, 0, 0, [];
    }

    /** How many of the checks listed did what: ok, warn, fail, skip. */
    static method CountListed(checks: seq<Check>) returns (listed: array<int>)
      requires |checks| <= MAX_REPORT
      ensures fresh(listed) && listed.Length == 4
      ensures listed[0] == Count(checks, Passes) && listed[1] == Count(checks, Warns)
      ensures listed[2] == Count(checks, Fails) && listed[3] == Count(checks, Skips)
    {
      hide Count, Add32;
      listed := new int[4](_ => 0);
      CountNothing(checks);
      for i := 0 to |checks|
        invariant listed[0] == Count(checks[..i], Passes) && listed[1] == Count(checks[..i], Warns)
        invariant listed[2] == Count(checks[..i], Fails) && listed[3] == Count(checks[..i], Skips)
      {
        CountNext(checks, i);
        var k := match checks[i].status case Passes => 0 case Warns => 1 case Fails => 2 case Skips => 3;
        listed[k] := Add32(listed[k], 1);
      }
      assert checks[..|checks|] == checks;
    }

    /** The counts published of a report, and the checks that matter most of it, in place of those before. */
    ghost predicate Filled(rep: Doctor, before: seq<Check>)
      requires 0 <= rep.passed <= MAX32 && 0 <= rep.failed <= MAX32 && 0 <= rep.warned <= MAX32 && 0 <= rep.skipped <= MAX32
      reads this
    {
      && (if Trusted(rep)
          then passed == rep.passed && warned == rep.warned && failed == rep.failed && skipped == rep.skipped
          else passed == Count(rep.checks, Passes) && warned == Count(rep.checks, Warns)
               && failed == Count(rep.checks, Fails) && skipped == Count(rep.checks, Skips))
      && (if rep.checks == [] then checks == before
          else exists keep :: Best(rep.checks, keep) && checks == Pick(rep.checks, keep)
                              && |keep| == if |rep.checks| <= 40 then |rep.checks| else 40)
    }

    /** The report's counts and the checks that matter most; how many checks are left out. */
    method FillChecks(rep: Doctor) returns (dropped: nat)
      requires 0 <= rep.passed <= MAX32 && 0 <= rep.failed <= MAX32 && 0 <= rep.warned <= MAX32 && 0 <= rep.skipped <= MAX32
      requires |rep.checks| <= MAX_REPORT
      modifies this`passed, this`warned, this`failed, this`skipped, this`checks
      ensures |rep.checks| <= passed + warned + failed + skipped
      ensures (exists i :: 0 <= i < |rep.checks| && rep.checks[i].status == Fails) ==> failed > 0
      ensures Filled(rep, old(checks)) && dropped == if |rep.checks| <= 40 then 0 else |rep.checks| - 40
    {
      var listed := CountListed(rep.checks);
      CountsAddUp(rep.checks);
      CountsFailing(rep.checks);
      SumNeverExceeds(rep.passed, rep.warned, rep.failed, rep.skipped);
      hide Count, Add32, Best;
      passed, warned, failed, skipped := rep.passed, rep.warned, rep.failed, rep.skipped;
      if Add32(Add32(Add32(rep.passed, rep.warned), rep.failed), rep.skipped) < |rep.checks| || (rep.failed == 0 && listed[2] > 0) {
        passed, warned, failed, skipped := listed[0], listed[1], listed[2], listed[3];
      }
      var kept, left, keep := KeepChecks(rep.checks, MAX_CHECKS);
      if |kept| > 0 { checks := kept; }
      dropped := left;
    }

    /**
     * The verdict: Failed where a check failed, Passed only with exit 0 and none that did,
     * and Error for anything else, an unreadable report among it.
     */
    method Judge(out: Outcome)
      requires WellFormed(out.report)
      modifies this
      ensures !Parses(out.report) ==> result == Error && unchanged(this`passed, this`warned, this`failed, this`skipped, this`checks)
      ensures Parses(out.report) ==> Filled(Parsed(out.report), old(checks))
      ensures Parses(out.report) ==> |Parsed(out.report).checks| <= passed + warned + failed + skipped
      ensures Parses(out.report) && (exists i :: 0 <= i < |Parsed(out.report).checks| && Parsed(out.report).checks[i].status == Fails)
              ==> result == Failed
      ensures Parses(out.report) ==> (result == Failed <==> failed > 0)
      ensures result == Passed ==> Parses(out.report) && out.ran && out.exitCode == 0
                                   && forall i | 0 <= i < |Parsed(out.report).checks| :: Parsed(out.report).checks[i].status != Fails
      ensures Parses(out.report) && out.ran && out.exitCode == 0 ==> result == Passed || result == Failed
      ensures Parses(out.report) && !(out.ran && out.exitCode == 0) ==> result == Error || result == Failed
      ensures Parses(out.report) ==>
                (result == Failed <==> || (exists i :: 0 <= i < |out.report.lines| && out.report.lines[i].s == "fail")
                                       || (out.report.failed > 0 && Trusted(Parsed(out.report))))
    {
      hide Best, Pick, Count, Add32, StatusOf;
      var rep := ParseReport(out.report);
      if rep.None? {
        result := Error;
        return;
      }
      ParsesIff(out.report);
      TrustedIff(rep.value);
      CountsFailing(rep.value.checks);
      var dropped := FillChecks(rep.value);
      if failed > 0 { result := Failed; }
      else if out.ran && out.exitCode == 0 { result := Passed; }
      else { result := Error; }
    }
  }
}
