/**
 * The WIP view's board (app.js, "WIP VIEW"): which jobs it shows, and how the
 * "todo" and "wip" modes sort them into four sections. The clock is a parameter.
 */
module Wip {
  import opened Wrappers
  import opened Seqs
  import opened Sorting
  import opened Text
  import opened Jobs

  /** Number suffixes reserved for a client's placeholder jobs. */
  predicate IsPlaceholder(job: Job)
  {
    var parts := Split(job.jobNumber, ' ');
    |parts| >= 2 && (parts[1] == "000" || parts[1] == "999")
  }

  function ShownOnWip(wipClient: string): Job -> bool
  {
    (j: Job) => (wipClient == "all" || j.clientCode == Some(wipClient)) && !IsPlaceholder(j)
  }

  /** getWipFilteredJobs: the chosen client's jobs ("all" for every client), minus placeholders, in cache order. */
  function WipFilteredJobs(allJobs: seq<Job>, wipClient: string): (r: seq<Job>)
    ensures forall j :: j in r <==> j in allJobs && ShownOnWip(wipClient)(j)
    ensures multiset(r) <= multiset(allJobs)
  {
    FilterMembers(allJobs, ShownOnWip(wipClient));
    FilterSubMultiset(allJobs, ShownOnWip(wipClient));
    Filter(allJobs, ShownOnWip(wipClient))
  }

  /** A job numbered "ONE 000" is never on the board, whoever is chosen. */
  lemma {:induction false} PlaceholderNeverShown(allJobs: seq<Job>, wipClient: string, j: Job, code: string)
    requires ' ' !in code
    requires j.jobNumber == code + " 000" || j.jobNumber == code + " 999"
    ensures j !in WipFilteredJobs(allJobs, wipClient)
  {
    PlaceholderNumber(j, code);
  }

  /** A client code, a space and 000 or 999 is a placeholder number. */
  lemma {:induction false} PlaceholderNumber(j: Job, code: string)
    requires ' ' !in code
    requires j.jobNumber == code + " 000" || j.jobNumber == code + " 999"
    ensures IsPlaceholder(j)
  {
    var rest := j.jobNumber[|code| + 1..];
    assert j.jobNumber == code + [' '] + rest;
    SplitPrefix(code, rest, ' ');
    assert Split(rest, ' ') == [rest] by { SplitNoSeparator(rest, ' '); }
  }

  /** A section of the board; compact sections show one line per job. */
  datatype Section = Section(title: string, jobs: seq<Job>, compact: bool)

  datatype Board = Board(leftTop: Section, leftBottom: Section, rightTop: Section, rightBottom: Section)
  {
    function AllJobs(): seq<Job>
    {
      leftTop.jobs + leftBottom.jobs + rightTop.jobs + rightBottom.jobs
    }
  }

  /** Both modes order a section by days until due, soonest (and undated last, at 999) first. */
  function DueKey(nowMs: int): Job -> SortKey
  {
    (j: Job) => NumKey(DaysUntilDue(j.updateDue, nowMs))
  }

  /** The sections a job can land in, and the test that puts it there. */
  function InBucket<B(==)>(cls: Job -> Option<B>, b: B): Job -> bool
  {
    j => cls(j) == Some(b)
  }

  function Classified<B>(cls: Job -> Option<B>): Job -> bool
  {
    j => cls(j).Some?
  }

  /** A section's contents: its jobs, in board order. */
  function SectionJobs<B(==)>(jobs: seq<Job>, cls: Job -> Option<B>, b: B, nowMs: int): seq<Job>
  {
    SortBy(Filter(jobs, InBucket(cls, b)), DueKey(nowMs), false)
  }

  /** One job's occurrences across four buckets that split the classifier's range. */
  lemma {:induction false} CountFour<B>(jobs: seq<Job>, cls: Job -> Option<B>, b1: B, b2: B, b3: B, b4: B, x: Job)
    requires b1 != b2 && b1 != b3 && b1 != b4 && b2 != b3 && b2 != b4 && b3 != b4
    requires cls(x).Some? ==> cls(x).value == b1 || cls(x).value == b2 || cls(x).value == b3 || cls(x).value == b4
    ensures multiset(Filter(jobs, InBucket(cls, b1)))[x] + multiset(Filter(jobs, InBucket(cls, b2)))[x]
          + multiset(Filter(jobs, InBucket(cls, b3)))[x] + multiset(Filter(jobs, InBucket(cls, b4)))[x]
         == multiset(Filter(jobs, Classified(cls)))[x]
  {
    FilterCount(jobs, InBucket(cls, b1), x);
    FilterCount(jobs, InBucket(cls, b2), x);
    FilterCount(jobs, InBucket(cls, b3), x);
    FilterCount(jobs, InBucket(cls, b4), x);
    FilterCount(jobs, Classified(cls), x);
  }

  /** Four buckets that split the classifier's range lose no job and hold none twice. */
  lemma {:induction false} FilterPartitionFour<B>(jobs: seq<Job>, cls: Job -> Option<B>, b1: B, b2: B, b3: B, b4: B)
    requires b1 != b2 && b1 != b3 && b1 != b4 && b2 != b3 && b2 != b4 && b3 != b4
    requires forall j :: cls(j).Some? ==> cls(j).value == b1 || cls(j).value == b2 || cls(j).value == b3 || cls(j).value == b4
    ensures multiset(Filter(jobs, InBucket(cls, b1))) + multiset(Filter(jobs, InBucket(cls, b2)))
          + multiset(Filter(jobs, InBucket(cls, b3))) + multiset(Filter(jobs, InBucket(cls, b4)))
         == multiset(Filter(jobs, Classified(cls)))
  {
    var m1, m2 := multiset(Filter(jobs, InBucket(cls, b1))), multiset(Filter(jobs, InBucket(cls, b2)));
    var m3, m4 := multiset(Filter(jobs, InBucket(cls, b3))), multiset(Filter(jobs, InBucket(cls, b4)));
    var all := multiset(Filter(jobs, Classified(cls)));
    forall x ensures (m1 + m2 + m3 + m4)[x] == all[x] {
      CountFour(jobs, cls, b1, b2, b3, b4, x);
    }
  }

  /** The same for the four sorted sections of a board. */
  lemma {:induction false} PartitionFour<B>(jobs: seq<Job>, cls: Job -> Option<B>, b1: B, b2: B, b3: B, b4: B, nowMs: int)
    requires b1 != b2 && b1 != b3 && b1 != b4 && b2 != b3 && b2 != b4 && b3 != b4
    requires forall j :: cls(j).Some? ==> cls(j).value == b1 || cls(j).value == b2 || cls(j).value == b3 || cls(j).value == b4
    ensures multiset(SectionJobs(jobs, cls, b1, nowMs)) + multiset(SectionJobs(jobs, cls, b2, nowMs))
          + multiset(SectionJobs(jobs, cls, b3, nowMs)) + multiset(SectionJobs(jobs, cls, b4, nowMs))
         == multiset(Filter(jobs, Classified(cls)))
  {
    FilterPartitionFour(jobs, cls, b1, b2, b3, b4);
    SortByCorrect(Filter(jobs, InBucket(cls, b1)), DueKey(nowMs), false);
    SortByCorrect(Filter(jobs, InBucket(cls, b2)), DueKey(nowMs), false);
    SortByCorrect(Filter(jobs, InBucket(cls, b3)), DueKey(nowMs), false);
    SortByCorrect(Filter(jobs, InBucket(cls, b4)), DueKey(nowMs), false);
  }

  /** A section holds exactly the jobs its classifier sends there. */
  lemma {:induction false} SectionMembers<B>(jobs: seq<Job>, cls: Job -> Option<B>, b: B, nowMs: int)
    ensures forall j :: j in SectionJobs(jobs, cls, b, nowMs) <==> j in jobs && cls(j) == Some(b)
  {
    SortByMembers(Filter(jobs, InBucket(cls, b)), DueKey(nowMs), false);
    FilterMembers(jobs, InBucket(cls, b));
  }

  /** A section lists the soonest-due job first. */
  lemma {:induction false} SectionOrder<B>(jobs: seq<Job>, cls: Job -> Option<B>, b: B, nowMs: int)
    ensures var s := SectionJobs(jobs, cls, b, nowMs);
      forall i, k :: 0 <= i < k < |s| ==> DaysUntilDue(s[i].updateDue, nowMs) <= DaysUntilDue(s[k].updateDue, nowMs)
  {
    var s := SectionJobs(jobs, cls, b, nowMs);
    SortByCorrect(Filter(jobs, InBucket(cls, b)), DueKey(nowMs), false);
    forall i, k | 0 <= i < k < |s|
      ensures DaysUntilDue(s[i].updateDue, nowMs) <= DaysUntilDue(s[k].updateDue, nowMs)
    {
      assert !Precedes(DueKey(nowMs)(s[k]), DueKey(nowMs)(s[i]), false);
    }
  }

  // ----- "todo" mode -----

  datatype TodoBucket = DoNow | DoSoon | ComingUp | WithClientBucket

  /** Finished or paused work is not on the todo board. */
  predicate OffTodoBoard(status: string)
  {
    status == "On Hold" || status == "Completed" || status == "Archived"
  }

  function TodoBucketOf(j: Job, nowMs: int): (r: Option<TodoBucket>)
    ensures r.None? <==> OffTodoBoard(j.status)
  {
    if OffTodoBoard(j.status) then None
    else if j.withClient then Some(WithClientBucket)
    else if j.status == "Incoming" then Some(ComingUp)
    else
      var d := DaysUntilDue(j.updateDue, nowMs);
      if d <= 1 then Some(DoNow) else if d <= 5 then Some(DoSoon) else Some(ComingUp)
  }

  function TodoClass(nowMs: int): Job -> Option<TodoBucket>
  {
    j => TodoBucketOf(j, nowMs)
  }

  /** groupByTodo: one pass pushing each job onto its section, then each section sorted by due days. */
  method GroupByTodo(jobs: seq<Job>, nowMs: int) returns (board: Board)
    ensures board.leftTop == Section("DO IT NOW", SectionJobs(jobs, TodoClass(nowMs), DoNow, nowMs), false)
    ensures board.leftBottom == Section("DO IT SOON", SectionJobs(jobs, TodoClass(nowMs), DoSoon, nowMs), false)
    ensures board.rightTop == Section("COMING UP", SectionJobs(jobs, TodoClass(nowMs), ComingUp, nowMs), true)
    ensures board.rightBottom == Section("WITH CLIENT", SectionJobs(jobs, TodoClass(nowMs), WithClientBucket, nowMs), true)
  {
    var doNow, doSoon, comingUp, withClient := TodoPass(jobs, nowMs);
    board := Board(
      Section("DO IT NOW", SortBy(doNow, DueKey(nowMs), false), false),
      Section("DO IT SOON", SortBy(doSoon, DueKey(nowMs), false), false),
      Section("COMING UP", SortBy(comingUp, DueKey(nowMs), false), true),
      Section("WITH CLIENT", SortBy(withClient, DueKey(nowMs), false), true));
  }

  /** groupByTodo's `forEach`: every job pushed onto its section, in cache order. */
  method TodoPass(jobs: seq<Job>, nowMs: int) returns (doNow: seq<Job>, doSoon: seq<Job>, comingUp: seq<Job>, withClient: seq<Job>)
    ensures doNow == Filter(jobs, InBucket(TodoClass(nowMs), DoNow))
    ensures doSoon == Filter(jobs, InBucket(TodoClass(nowMs), DoSoon))
    ensures comingUp == Filter(jobs, InBucket(TodoClass(nowMs), ComingUp))
    ensures withClient == Filter(jobs, InBucket(TodoClass(nowMs), WithClientBucket))
  {
    var cls := TodoClass(nowMs);
    doNow, doSoon, comingUp, withClient := [], [], [], [];
    for i := 0 to |jobs|
      invariant doNow == Filter(jobs[..i], InBucket(cls, DoNow))
      invariant doSoon == Filter(jobs[..i], InBucket(cls, DoSoon))
      invariant comingUp == Filter(jobs[..i], InBucket(cls, ComingUp))
      invariant withClient == Filter(jobs[..i], InBucket(cls, WithClientBucket))
    {
      var j := jobs[i];
      assert jobs[..i + 1] == jobs[..i] + [j];
      FilterSnoc(jobs[..i], j, InBucket(cls, DoNow));
      FilterSnoc(jobs[..i], j, InBucket(cls, DoSoon));
      FilterSnoc(jobs[..i], j, InBucket(cls, ComingUp));
      FilterSnoc(jobs[..i], j, InBucket(cls, WithClientBucket));
      doNow, doSoon, comingUp, withClient := PushTodo(doNow, doSoon, comingUp, withClient, j, nowMs);
    }
    assert jobs[..|jobs|] == jobs;
  }

  /** One job of groupByTodo's pass, pushed onto the section its status, owner and due date pick. */
  method PushTodo(doNow: seq<Job>, doSoon: seq<Job>, comingUp: seq<Job>, withClient: seq<Job>, j: Job, nowMs: int)
    returns (doNow': seq<Job>, doSoon': seq<Job>, comingUp': seq<Job>, withClient': seq<Job>)
    ensures doNow' == doNow + (if TodoBucketOf(j, nowMs) == Some(DoNow) then [j] else [])
    ensures doSoon' == doSoon + (if TodoBucketOf(j, nowMs) == Some(DoSoon) then [j] else [])
    ensures comingUp' == comingUp + (if TodoBucketOf(j, nowMs) == Some(ComingUp) then [j] else [])
    ensures withClient' == withClient + (if TodoBucketOf(j, nowMs) == Some(WithClientBucket) then [j] else [])
  {
    doNow', doSoon', comingUp', withClient' := doNow, doSoon, comingUp, withClient;
    if OffTodoBoard(j.status) {
    } else if j.withClient {
      withClient' := withClient + [j];
    } else if j.status == "Incoming" {
      comingUp' := comingUp + [j];
    } else {
      var d := DaysUntilDue(j.updateDue, nowMs);
      if d <= 1 {
        doNow' := doNow + [j];
      } else if d <= 5 {
        doSoon' := doSoon + [j];
      } else {
        comingUp' := comingUp + [j];
      }
    }
  }

  /** The todo board shows every job that is not on hold, completed or archived, exactly once. */
  lemma {:induction false} TodoBoardPartition(jobs: seq<Job>, nowMs: int)
    ensures var cls := TodoClass(nowMs);
      multiset(SectionJobs(jobs, cls, DoNow, nowMs)) + multiset(SectionJobs(jobs, cls, DoSoon, nowMs))
      + multiset(SectionJobs(jobs, cls, ComingUp, nowMs)) + multiset(SectionJobs(jobs, cls, WithClientBucket, nowMs))
      == multiset(Filter(jobs, (j: Job) => !OffTodoBoard(j.status)))
  {
    var cls := TodoClass(nowMs);
    PartitionFour(jobs, cls, DoNow, DoSoon, ComingUp, WithClientBucket, nowMs);
    FilterExt(jobs, Classified(cls), (j: Job) => !OffTodoBoard(j.status));
  }

  /** Where the todo board puts a job: with the client wins, then incoming, then the due-day thresholds 1 and 5. */
  lemma {:induction false} TodoPlacement(jobs: seq<Job>, nowMs: int, j: Job)
    requires j in jobs && !OffTodoBoard(j.status)
    ensures var cls := TodoClass(nowMs);
      var d := DaysUntilDue(j.updateDue, nowMs);
      && (j.withClient ==> j in SectionJobs(jobs, cls, WithClientBucket, nowMs))
      && (!j.withClient && j.status == "Incoming" ==> j in SectionJobs(jobs, cls, ComingUp, nowMs))
      && (!j.withClient && j.status != "Incoming" && d <= 1 ==> j in SectionJobs(jobs, cls, DoNow, nowMs))
      && (!j.withClient && j.status != "Incoming" && 1 < d <= 5 ==> j in SectionJobs(jobs, cls, DoSoon, nowMs))
      && (!j.withClient && j.status != "Incoming" && d > 5 ==> j in SectionJobs(jobs, cls, ComingUp, nowMs))
  {
    var cls := TodoClass(nowMs);
    SectionMembers(jobs, cls, DoNow, nowMs);
    SectionMembers(jobs, cls, DoSoon, nowMs);
    SectionMembers(jobs, cls, ComingUp, nowMs);
    SectionMembers(jobs, cls, WithClientBucket, nowMs);
  }

  /** An "In Progress" job with no due date (999 days away) waits in COMING UP. */
  lemma {:induction false} UndatedTodoComingUp(jobs: seq<Job>, nowMs: int, j: Job)
    requires j in jobs && j.status == "In Progress" && !j.withClient && j.updateDue.None?
    ensures j in SectionJobs(jobs, TodoClass(nowMs), ComingUp, nowMs)
  {
    SectionMembers(jobs, TodoClass(nowMs), ComingUp, nowMs);
  }

  // ----- "wip" mode -----

  datatype WipBucket = WithUs | WithYou | IncomingBucket | OnHoldBucket

  function WipBucketOf(j: Job): (r: Option<WipBucket>)
    ensures r.None? <==> j.status == "Completed" || j.status == "Archived"
  {
    if j.status == "Incoming" then Some(IncomingBucket)
    else if j.status == "On Hold" then Some(OnHoldBucket)
    else if j.status == "Completed" || j.status == "Archived" then None
    else if j.withClient then Some(WithYou)
    else Some(WithUs)
  }

  function WipClass(): Job -> Option<WipBucket>
  {
    j => WipBucketOf(j)
  }

  /** groupByWip: one pass pushing each job onto its section, then each section sorted by due days. */
  method GroupByWip(jobs: seq<Job>, nowMs: int) returns (board: Board)
    ensures board.leftTop == Section("WE'RE ON IT", SectionJobs(jobs, WipClass(), WithUs, nowMs), false)
    ensures board.rightTop == Section("WITH YOU", SectionJobs(jobs, WipClass(), WithYou, nowMs), false)
    ensures board.leftBottom == Section("INCOMING", SectionJobs(jobs, WipClass(), IncomingBucket, nowMs), true)
    ensures board.rightBottom == Section("ON HOLD", SectionJobs(jobs, WipClass(), OnHoldBucket, nowMs), true)
  {
    var withUs, withYou, incoming, onHold := WipPass(jobs);
    board := Board(
      Section("WE'RE ON IT", SortBy(withUs, DueKey(nowMs), false), false),
      Section("INCOMING", SortBy(incoming, DueKey(nowMs), false), true),
      Section("WITH YOU", SortBy(withYou, DueKey(nowMs), false), false),
      Section("ON HOLD", SortBy(onHold, DueKey(nowMs), false), true));
  }

  /** groupByWip's `forEach`: every job pushed onto its section, in cache order. */
  method WipPass(jobs: seq<Job>) returns (withUs: seq<Job>, withYou: seq<Job>, incoming: seq<Job>, onHold: seq<Job>)
    ensures withUs == Filter(jobs, InBucket(WipClass(), WithUs))
    ensures withYou == Filter(jobs, InBucket(WipClass(), WithYou))
    ensures incoming == Filter(jobs, InBucket(WipClass(), IncomingBucket))
    ensures onHold == Filter(jobs, InBucket(WipClass(), OnHoldBucket))
  {
    var cls := WipClass();
    withUs, withYou, incoming, onHold := [], [], [], [];
    for i := 0 to |jobs|
      invariant withUs == Filter(jobs[..i], InBucket(cls, WithUs))
      invariant withYou == Filter(jobs[..i], InBucket(cls, WithYou))
      invariant incoming == Filter(jobs[..i], InBucket(cls, IncomingBucket))
      invariant onHold == Filter(jobs[..i], InBucket(cls, OnHoldBucket))
    {
      var j := jobs[i];
      assert jobs[..i + 1] == jobs[..i] + [j];
      FilterSnoc(jobs[..i], j, InBucket(cls, WithUs));
      FilterSnoc(jobs[..i], j, InBucket(cls, WithYou));
      FilterSnoc(jobs[..i], j, InBucket(cls, IncomingBucket));
      FilterSnoc(jobs[..i], j, InBucket(cls, OnHoldBucket));
      withUs, withYou, incoming, onHold := PushWip(withUs, withYou, incoming, onHold, j);
    }
    assert jobs[..|jobs|] == jobs;
  }

  /** One job of groupByWip's pass, pushed onto the section its status and owner pick. */
  method PushWip(withUs: seq<Job>, withYou: seq<Job>, incoming: seq<Job>, onHold: seq<Job>, j: Job)
    returns (withUs': seq<Job>, withYou': seq<Job>, incoming': seq<Job>, onHold': seq<Job>)
    ensures withUs' == withUs + (if WipBucketOf(j) == Some(WithUs) then [j] else [])
    ensures withYou' == withYou + (if WipBucketOf(j) == Some(WithYou) then [j] else [])
    ensures incoming' == incoming + (if WipBucketOf(j) == Some(IncomingBucket) then [j] else [])
    ensures onHold' == onHold + (if WipBucketOf(j) == Some(OnHoldBucket) then [j] else [])
  {
    withUs', withYou', incoming', onHold' := withUs, withYou, incoming, onHold;
    if j.status == "Incoming" {
      incoming' := incoming + [j];
    } else if j.status == "On Hold" {
      onHold' := onHold + [j];
    } else if j.status == "Completed" || j.status == "Archived" {
    } else if j.withClient {
      withYou' := withYou + [j];
    } else {
      withUs' := withUs + [j];
    }
  }

  /** The wip board shows every job that is not completed or archived, exactly once. */
  lemma {:induction false} WipBoardPartition(jobs: seq<Job>, nowMs: int)
    ensures var cls := WipClass();
      multiset(SectionJobs(jobs, cls, WithUs, nowMs)) + multiset(SectionJobs(jobs, cls, WithYou, nowMs))
      + multiset(SectionJobs(jobs, cls, IncomingBucket, nowMs)) + multiset(SectionJobs(jobs, cls, OnHoldBucket, nowMs))
      == multiset(Filter(jobs, (j: Job) => j.status != "Completed" && j.status != "Archived"))
  {
    var cls := WipClass();
    PartitionFour(jobs, cls, WithUs, WithYou, IncomingBucket, OnHoldBucket, nowMs);
    FilterExt(jobs, Classified(cls), (j: Job) => j.status != "Completed" && j.status != "Archived");
  }

  /** Where the wip board puts a job: status first (incoming, on hold), then who holds the ball. */
  lemma {:induction false} WipPlacement(jobs: seq<Job>, nowMs: int, j: Job)
    requires j in jobs && j.status != "Completed" && j.status != "Archived"
    ensures var cls := WipClass();
      && (j.status == "Incoming" ==> j in SectionJobs(jobs, cls, IncomingBucket, nowMs))
      && (j.status == "On Hold" ==> j in SectionJobs(jobs, cls, OnHoldBucket, nowMs))
      && (j.status != "Incoming" && j.status != "On Hold" && j.withClient ==> j in SectionJobs(jobs, cls, WithYou, nowMs))
      && (j.status != "Incoming" && j.status != "On Hold" && !j.withClient ==> j in SectionJobs(jobs, cls, WithUs, nowMs))
  {
    var cls := WipClass();
    SectionMembers(jobs, cls, WithUs, nowMs);
    SectionMembers(jobs, cls, WithYou, nowMs);
    SectionMembers(jobs, cls, IncomingBucket, nowMs);
    SectionMembers(jobs, cls, OnHoldBucket, nowMs);
  }
}
