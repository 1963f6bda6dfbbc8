/** pkg/service/operator/Status.go: the bounded event log and the statuses the operator composes. */
module Status {
  import opened Api

  const EVENT_MAX_SIZE := 10

  /** One call of updateLastEvent. */
  datatype Report = Report(code: int, message: string, status: bool, now: int)

  // ----- The unbounded history -----

  /** A repeated code refreshes the last entry, a new code opens one; the very first entry starts with status false. */
  function Extend(events: seq<Event>, r: Report): seq<Event> {
    if events == [] then [Event(false, r.code, r.message, r.now, r.now)]
    else
      var last := events[|events| - 1];
      if last.code == r.code
      then events[|events| - 1 := last.(message := r.message, lastTransition := r.now)]
      else events + [Event(r.status, r.code, r.message, r.now, r.now)]
  }

  /** Every report ever made, one entry per run of equal codes. */
  function History(reports: seq<Report>): seq<Event> {
    if reports == [] then [] else Extend(History(reports[..|reports| - 1]), reports[|reports| - 1])
  }

  function Codes(events: seq<Event>): (codes: seq<int>)
    ensures |codes| == |events|
    ensures forall i :: 0 <= i < |events| ==> codes[i] == events[i].code
  {
    seq(|events|, i requires 0 <= i < |events| => events[i].code)
  }

  function ReportedCodes(reports: seq<Report>): seq<int> {
    seq(|reports|, i requires 0 <= i < |reports| => reports[i].code)
  }

  /** Run-length compression of a list of codes. */
  function Runs(codes: seq<int>): seq<int> {
    if codes == [] then []
    else
      var front, last := Runs(codes[..|codes| - 1]), codes[|codes| - 1];
      if front != [] && front[|front| - 1] == last then front else front + [last]
  }

  lemma {:induction false} HistoryCodes(reports: seq<Report>)
    ensures Codes(History(reports)) == Runs(ReportedCodes(reports))
    ensures reports != [] ==> History(reports) != []
  {
    if reports != [] {
      var n := |reports| - 1;
      HistoryCodes(reports[..n]);
      assert ReportedCodes(reports)[..n] == ReportedCodes(reports[..n]);
      var events := History(reports[..n]);
      ExtendCodes(events, reports[n]);
    }
  }

  lemma ExtendCodes(events: seq<Event>, r: Report)
    ensures Codes(Extend(events, r)) ==
      if events != [] && events[|events| - 1].code == r.code then Codes(events) else Codes(events) + [r.code]
  {
  }

  // ----- The bounded log -----

  /** More than ten entries lose their oldest before the report is entered. */
  function Logged(events: seq<Event>, r: Report): seq<Event> {
    Extend(if |events| > EVENT_MAX_SIZE then events[1..] else events, r)
  }

  function Log(reports: seq<Report>): seq<Event> {
    if reports == [] then [] else Logged(Log(reports[..|reports| - 1]), reports[|reports| - 1])
  }

  predicate IsSuffix(xs: seq<Event>, ys: seq<Event>) {
    |xs| <= |ys| && xs == ys[|ys| - |xs|..]
  }

  lemma ExtendSuffix(xs: seq<Event>, ys: seq<Event>, r: Report)
    requires IsSuffix(xs, ys) && xs != []
    ensures IsSuffix(Extend(xs, r), Extend(ys, r))
    ensures |Extend(ys, r)| - |ys| == |Extend(xs, r)| - |xs|
  {
    var d := |ys| - |xs|;
    assert forall i :: 0 <= i < |xs| ==> xs[i] == ys[d + i];
  }

  lemma DropFirstSuffix(xs: seq<Event>, ys: seq<Event>)
    requires IsSuffix(xs, ys) && xs != []
    ensures IsSuffix(xs[1..], ys)
  {
    assert ys[|ys| - |xs|..][1..] == ys[|ys| - |xs| + 1..];
  }

  /** How a log may stand to the history it was cut from. */
  predicate Refines(log: seq<Event>, all: seq<Event>) {
    && IsSuffix(log, all)
    && (log == [] ==> all == [])
    && (|all| <= EVENT_MAX_SIZE ==> log == all)
    && (|all| > EVENT_MAX_SIZE ==> EVENT_MAX_SIZE <= |log| <= EVENT_MAX_SIZE + 1)
  }

  lemma RefinesStep(log: seq<Event>, all: seq<Event>, r: Report)
    requires Refines(log, all)
    ensures Refines(Logged(log, r), Extend(all, r))
  {
    if |log| > EVENT_MAX_SIZE {
      DropFirstSuffix(log, all);
      ExtendSuffix(log[1..], all, r);
    } else if log != [] {
      ExtendSuffix(log, all, r);
    }
  }

  /**
   The log refines the unbounded history: it is a suffix of it, entry for entry; all of it up to ten
   entries, and ten or eleven entries from then on.
   */
  lemma {:induction false} LogRefinesHistory(reports: seq<Report>)
    ensures Refines(Log(reports), History(reports))
  {
    if reports != [] {
      var front := reports[..|reports| - 1];
      LogRefinesHistory(front);
      RefinesStep(Log(front), History(front), reports[|reports| - 1]);
    }
  }

  predicate NeighboursDiffer(events: seq<Event>) {
    forall i, j :: 0 <= i < |events| && j == i + 1 && j < |events| ==> events[i].code != events[j].code
  }

  predicate TrueMeansNormal(events: seq<Event>) {
    forall i :: 0 <= i < |events| ==> (events[i].status ==> events[i].code == CODE_NORMAL)
  }

  predicate Tells(events: seq<Event>, r: Report) {
    && events != []
    && var last := events[|events| - 1];
       last.code == r.code && last.message == r.message && last.lastTransition == r.now
  }

  /** Callers pass status true only with the normal code. */
  predicate HonestReports(reports: seq<Report>) {
    forall i :: 0 <= i < |reports| ==> (reports[i].status ==> reports[i].code == CODE_NORMAL)
  }

  /** Where the run of equal codes that ends the reports begins. */
  function RunStart(reports: seq<Report>): (i: nat)
    requires reports != []
    ensures i < |reports|
  {
    var n := |reports| - 1;
    if n == 0 || reports[n - 1].code != reports[n].code then n else RunStart(reports[..n])
  }

  lemma {:induction false} FirstAppearance(reports: seq<Report>)
    requires reports != []
    ensures History(reports) != [] && Tells(History(reports), reports[|reports| - 1])
    ensures History(reports)[|History(reports)| - 1].firstAppear == reports[RunStart(reports)].now
  {
    if |reports| > 1 {
      FirstAppearance(reports[..|reports| - 1]);
    }
  }

  /** The last entry has the flag of the first report of its run of equal codes, but false in the very first run. */
  lemma {:induction false} LastFlag(reports: seq<Report>)
    requires reports != []
    ensures History(reports) != []
    ensures History(reports)[|History(reports)| - 1].status <==>
      RunStart(reports) > 0 && reports[RunStart(reports)].status
  {
    if |reports| > 1 {
      LastFlag(reports[..|reports| - 1]);
      FirstAppearance(reports[..|reports| - 1]);
    }
  }

  lemma SameLast(reports: seq<Report>)
    requires reports != []
    ensures Log(reports) != [] && History(reports) != []
    ensures Log(reports)[|Log(reports)| - 1] == History(reports)[|History(reports)| - 1]
  {
    LogRefinesHistory(reports);
    FirstAppearance(reports);
    SuffixLast(Log(reports), History(reports));
  }

  lemma SuffixLast(log: seq<Event>, all: seq<Event>)
    requires IsSuffix(log, all) && log != []
    ensures log[|log| - 1] == all[|all| - 1]
  {
  }

  /** So in the log, however much of it was dropped. */
  lemma {:induction false} LogFlag(reports: seq<Report>)
    requires reports != []
    ensures Log(reports) != []
    ensures Log(reports)[|Log(reports)| - 1].status <==> RunStart(reports) > 0 && reports[RunStart(reports)].status
  {
    LastFlag(reports);
    SameLast(reports);
  }

  /** Neighbouring entries differ in code, and the last entry tells the last report. */
  lemma {:induction false} HistoryShape(reports: seq<Report>)
    ensures NeighboursDiffer(History(reports))
    ensures reports != [] ==> Tells(History(reports), reports[|reports| - 1])
    ensures HonestReports(reports) ==> TrueMeansNormal(History(reports))
  {
    if reports != [] {
      HistoryShape(reports[..|reports| - 1]);
    }
  }

  /** The codes in the log are the latest of the compressed codes: all up to ten, and then ten or eleven. */
  lemma {:induction false} LogCodes(reports: seq<Report>)
    requires reports != []
    ensures var log, runs := Log(reports), Runs(ReportedCodes(reports));
      && 1 <= |log| <= |runs|
      && Codes(log) == runs[|runs| - |log|..]
      && (|runs| <= 10 ==> |log| == |runs|)
      && (|runs| > 10 ==> |log| == 10 || |log| == 11)
  {
    LogRefinesHistory(reports);
    HistoryCodes(reports);
    RefinedCodes(Log(reports), History(reports), Runs(ReportedCodes(reports)));
  }

  lemma RefinedCodes(log: seq<Event>, all: seq<Event>, runs: seq<int>)
    requires Refines(log, all) && all != [] && Codes(all) == runs
    ensures 1 <= |log| <= |runs| && Codes(log) == runs[|runs| - |log|..]
    ensures |runs| <= EVENT_MAX_SIZE ==> |log| == |runs|
    ensures |runs| > EVENT_MAX_SIZE ==> |log| == EVENT_MAX_SIZE || |log| == EVENT_MAX_SIZE + 1
  {
    SuffixMeaning(log, all);
  }

  /** What a reader of the status sees after any sequence of reports from an empty log. */
  lemma {:induction false} LogMeaning(reports: seq<Report>)
    requires reports != []
    ensures NeighboursDiffer(Log(reports)) && Tells(Log(reports), reports[|reports| - 1])
    ensures HonestReports(reports) ==> TrueMeansNormal(Log(reports))
  {
    LogRefinesHistory(reports);
    HistoryShape(reports);
    SuffixMeaning(Log(reports), History(reports));
  }

  /** The last entry dates from the first report of the run of equal codes that it stands for. */
  lemma {:induction false} LogDates(reports: seq<Report>)
    requires reports != []
    ensures Log(reports) != [] && Log(reports)[|Log(reports)| - 1].firstAppear == reports[RunStart(reports)].now
  {
    FirstAppearance(reports);
    SameLast(reports);
  }

  lemma SuffixMeaning(log: seq<Event>, all: seq<Event>)
    requires IsSuffix(log, all) && log != []
    ensures log[|log| - 1] == all[|all| - 1]
    ensures Codes(log) == Codes(all)[|all| - |log|..]
    ensures NeighboursDiffer(all) ==> NeighboursDiffer(log)
    ensures TrueMeansNormal(all) ==> TrueMeansNormal(log)
  {
    SuffixLast(log, all);
    SuffixCodes(log, all);
    SuffixShape(log, all);
  }

  lemma SuffixCodes(log: seq<Event>, all: seq<Event>)
    requires IsSuffix(log, all)
    ensures Codes(log) == Codes(all)[|all| - |log|..]
  {
  }

  lemma SuffixShape(log: seq<Event>, all: seq<Event>)
    requires IsSuffix(log, all)
    ensures NeighboursDiffer(all) ==> NeighboursDiffer(log)
    ensures TrueMeansNormal(all) ==> TrueMeansNormal(log)
  {
    var d := |all| - |log|;
    assert forall i :: 0 <= i < |log| ==> log[i] == all[d + i];
  }

  // ----- The statuses written -----

  function Synced(status: NacosStatus): NacosStatus {
    status.(healthy := status.phase == PhaseRunning)
  }

  function RunningStatus(status: NacosStatus, now: int): NacosStatus {
    Synced(status.(events := Logged(status.events, Report(CODE_NORMAL, "", true, now)), phase := PhaseRunning))
  }

  function ExceptionStatus(status: NacosStatus, code: int, message: string, now: int): NacosStatus {
    Synced(status.(events := Logged(status.events, Report(code, message, false, now)), phase := PhaseFailed))
  }

  method UpdateLastEvent(nacos: Nacos, code: int, message: string, status: bool, now: int)
    modifies nacos`status
    ensures nacos.status ==
      old(nacos.status).(events := Logged(old(nacos.status.events), Report(code, message, status, now)))
  {
    var events := nacos.status.events;
    if |events| > EVENT_MAX_SIZE {
      events := events[1..];
    }
    var event: Event;
    if |events| == 0 {
      event := Event(false, code, message, now, now);
      events := events + [event];
    } else {
      event := events[|events| - 1];
    }
    if event.code == code {
      event := event.(lastTransition := now, message := message);
      events := events[|events| - 1 := event];
    } else {
      event := Event(status, code, message, now, now);
      events := events + [event];
    }
    nacos.status := nacos.status.(events := events);
  }

  method SyncHealthy(nacos: Nacos)
    modifies nacos`status
    ensures nacos.status == Synced(old(nacos.status))
  {
    nacos.status := nacos.status.(healthy := nacos.status.phase == PhaseRunning);
  }
}
