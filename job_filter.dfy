/**
 * The job filter and search engine of the dashboard (app.js, "JOB FILTERING"):
 * getFilteredJobs, searchJobs, scoreJobMatch and getClientsWithJobCounts.
 * "Today" is a day number passed in; the job cache is passed in as a value, so
 * none of these can change it.
 */
module JobFilter {
  import opened Wrappers
  import opened Seqs
  import opened Sorting
  import opened Text
  import opened Jobs

  /** The filter request; a field JavaScript would see as `undefined` is `None`. */
  datatype Modifiers = Modifiers(
    client: Option<string>,
    status: Option<string>,
    withClient: Option<bool>,
    dateRange: Option<string>,
    sortBy: Option<string>,
    sortOrder: Option<string>)

  /** No modifiers at all. */
  const NoModifiers := Modifiers(None, None, None, None, None, None)

  /** A string modifier JavaScript treats as set: present and not empty. */
  predicate Given(o: Option<string>) { o.Some? && o.value != "" }

  /** `o || d` for a string modifier. */
  function OrElse(o: Option<string>, d: string): string { if Given(o) then o.value else d }

  // ----- the filter steps, each `true` when its modifier does not apply -----

  predicate ClientStep(m: Modifiers, j: Job)
  {
    !Given(m.client) || j.clientCode == Some(m.client.value)
  }

  predicate StatusStep(m: Modifiers, includeAllStatuses: bool, j: Job)
  {
    includeAllStatuses || !Given(m.status) || j.status == m.status.value
  }

  predicate WithClientStep(m: Modifiers, j: Job)
  {
    m.withClient.None? || j.withClient == m.withClient.value
  }

  /** A date range is an upper bound on the due day; an unknown range only requires a due date. */
  predicate DueWithin(range: string, today: int, due: Option<int>)
  {
    due.Some? &&
    if range == "today" then due.value <= today
    else if range == "tomorrow" then due.value <= today + 1
    else if range == "week" then due.value <= today + 7
    else true
  }

  predicate DateStep(m: Modifiers, today: int, j: Job)
  {
    !Given(m.dateRange) || DueWithin(m.dateRange.value, today, j.updateDue)
  }

  /** Without a status and without `includeAllStatuses`, only "In Progress" jobs are shown. */
  predicate DefaultStatusStep(m: Modifiers, includeAllStatuses: bool, j: Job)
  {
    includeAllStatuses || Given(m.status) || j.status == "In Progress"
  }

  predicate Selected(m: Modifiers, includeAllStatuses: bool, today: int, j: Job)
  {
    ClientStep(m, j) && StatusStep(m, includeAllStatuses, j) && WithClientStep(m, j)
    && DateStep(m, today, j) && DefaultStatusStep(m, includeAllStatuses, j)
  }

  function SelectedBy(m: Modifiers, includeAllStatuses: bool, today: int): Job -> bool
  {
    j => Selected(m, includeAllStatuses, today, j)
  }

  /** The sort field: `updated` (missing = epoch 0), `jobNumber`, or the due date (missing = 9999-12-31). */
  function SortKeyOf(m: Modifiers): Job -> SortKey
  {
    var field := OrElse(m.sortBy, "dueDate");
    if field == "updated" then (j: Job) => NumKey(j.lastUpdated.GetOr(0))
    else if field == "jobNumber" then (j: Job) => TextKey(j.jobNumber)
    else (j: Job) => NumKey(j.updateDue.GetOr(FarFutureDay))
  }

  /** Any sort order other than "asc" sorts descending. */
  predicate Descending(m: Modifiers)
  {
    OrElse(m.sortOrder, "asc") != "asc"
  }

  /** What getFilteredJobs returns: the selected jobs, stably sorted. */
  function FilteredJobs(allJobs: seq<Job>, m: Modifiers, includeAllStatuses: bool, today: int): seq<Job>
  {
    SortBy(Filter(allJobs, SelectedBy(m, includeAllStatuses, today)), SortKeyOf(m), Descending(m))
  }

  /** The first `k` filter steps of getFilteredJobs, in the order the source applies them. */
  predicate Through(k: nat, m: Modifiers, includeAllStatuses: bool, today: int, j: Job)
  {
    (k >= 1 ==> ClientStep(m, j)) && (k >= 2 ==> StatusStep(m, includeAllStatuses, j))
    && (k >= 3 ==> WithClientStep(m, j)) && (k >= 4 ==> DateStep(m, today, j))
    && (k >= 5 ==> DefaultStatusStep(m, includeAllStatuses, j))
  }

  function ThroughBy(k: nat, m: Modifiers, includeAllStatuses: bool, today: int): Job -> bool
  {
    j => Through(k, m, includeAllStatuses, today, j)
  }

  /** getFilteredJobs: successive filters over a copy of the cache, then a sort. */
  method GetFilteredJobs(allJobs: seq<Job>, m: Modifiers, includeAllStatuses: bool, today: int)
    returns (jobs: seq<Job>)
    ensures jobs == FilteredJobs(allJobs, m, includeAllStatuses, today)
    ensures multiset(jobs) <= multiset(allJobs)
    ensures forall j :: j in jobs <==> j in allJobs && Selected(m, includeAllStatuses, today, j)
    ensures SortedBy(jobs, SortKeyOf(m), Descending(m))
  {
    var inc := includeAllStatuses;
    jobs := allJobs;
    FilterAll(allJobs, ThroughBy(0, m, inc, today));
    jobs := ClientFilter(allJobs, jobs, m, inc, today);
    jobs := StatusFilter(allJobs, jobs, m, inc, today);
    jobs := WithClientFilter(allJobs, jobs, m, inc, today);
    jobs := DateFilter(allJobs, jobs, m, inc, today);
    jobs := DefaultStatusFilter(allJobs, jobs, m, inc, today);
    FilterExt(allJobs, ThroughBy(5, m, inc, today), SelectedBy(m, inc, today));
    jobs := SortBy(jobs, SortKeyOf(m), Descending(m));
    FilteredJobsProperties(allJobs, m, inc, today);
  }

  /** `if (modifiers.client)`: keep the client's jobs. */
  method ClientFilter(allJobs: seq<Job>, jobs: seq<Job>, m: Modifiers, inc: bool, today: int) returns (kept: seq<Job>)
    requires jobs == Filter(allJobs, ThroughBy(0, m, inc, today))
    ensures kept == Filter(allJobs, ThroughBy(1, m, inc, today))
  {
    kept := jobs;
    if Given(m.client) {
      var client := m.client.value;
      var keep := (j: Job) => j.clientCode == Some(client);
      kept := Filter(jobs, keep);
      FilterFilter(allJobs, ThroughBy(0, m, inc, today), keep, ThroughBy(1, m, inc, today));
    } else {
      FilterExt(allJobs, ThroughBy(0, m, inc, today), ThroughBy(1, m, inc, today));
    }
  }

  /** `if (!includeAllStatuses && modifiers.status)`: keep that status. */
  method StatusFilter(allJobs: seq<Job>, jobs: seq<Job>, m: Modifiers, inc: bool, today: int) returns (kept: seq<Job>)
    requires jobs == Filter(allJobs, ThroughBy(1, m, inc, today))
    ensures kept == Filter(allJobs, ThroughBy(2, m, inc, today))
  {
    kept := jobs;
    if !inc && Given(m.status) {
      var status := m.status.value;
      var keep := (j: Job) => j.status == status;
      kept := Filter(jobs, keep);
      FilterFilter(allJobs, ThroughBy(1, m, inc, today), keep, ThroughBy(2, m, inc, today));
    } else {
      FilterExt(allJobs, ThroughBy(1, m, inc, today), ThroughBy(2, m, inc, today));
    }
  }

  /** `withClient` true or false keeps the jobs with that flag. */
  method WithClientFilter(allJobs: seq<Job>, jobs: seq<Job>, m: Modifiers, inc: bool, today: int) returns (kept: seq<Job>)
    requires jobs == Filter(allJobs, ThroughBy(2, m, inc, today))
    ensures kept == Filter(allJobs, ThroughBy(3, m, inc, today))
  {
    kept := jobs;
    if m.withClient == Some(true) {
      var keep := (j: Job) => j.withClient == true;
      kept := Filter(jobs, keep);
      FilterFilter(allJobs, ThroughBy(2, m, inc, today), keep, ThroughBy(3, m, inc, today));
    } else if m.withClient == Some(false) {
      var keep := (j: Job) => !j.withClient;
      kept := Filter(jobs, keep);
      FilterFilter(allJobs, ThroughBy(2, m, inc, today), keep, ThroughBy(3, m, inc, today));
    } else {
      FilterExt(allJobs, ThroughBy(2, m, inc, today), ThroughBy(3, m, inc, today));
    }
  }

  /** `if (modifiers.dateRange)`: keep the jobs due within the range. */
  method DateFilter(allJobs: seq<Job>, jobs: seq<Job>, m: Modifiers, inc: bool, today: int) returns (kept: seq<Job>)
    requires jobs == Filter(allJobs, ThroughBy(3, m, inc, today))
    ensures kept == Filter(allJobs, ThroughBy(4, m, inc, today))
  {
    kept := jobs;
    if Given(m.dateRange) {
      var range := m.dateRange.value;
      var keep := (j: Job) => DueWithin(range, today, j.updateDue);
      kept := Filter(jobs, keep);
      FilterFilter(allJobs, ThroughBy(3, m, inc, today), keep, ThroughBy(4, m, inc, today));
    } else {
      FilterExt(allJobs, ThroughBy(3, m, inc, today), ThroughBy(4, m, inc, today));
    }
  }

  /** No status and not all statuses: keep the "In Progress" jobs. */
  method DefaultStatusFilter(allJobs: seq<Job>, jobs: seq<Job>, m: Modifiers, inc: bool, today: int) returns (kept: seq<Job>)
    requires jobs == Filter(allJobs, ThroughBy(4, m, inc, today))
    ensures kept == Filter(allJobs, ThroughBy(5, m, inc, today))
  {
    kept := jobs;
    if !Given(m.status) && !inc {
      var keep := (j: Job) => j.status == "In Progress";
      kept := Filter(jobs, keep);
      FilterFilter(allJobs, ThroughBy(4, m, inc, today), keep, ThroughBy(5, m, inc, today));
    } else {
      FilterExt(allJobs, ThroughBy(4, m, inc, today), ThroughBy(5, m, inc, today));
    }
  }

  /** The jobs shown are exactly the cached jobs every step selects, sorted, with no job repeated by the filter. */
  lemma {:induction false} FilteredJobsProperties(allJobs: seq<Job>, m: Modifiers, includeAllStatuses: bool, today: int)
    ensures var r := FilteredJobs(allJobs, m, includeAllStatuses, today);
      && multiset(r) == multiset(Filter(allJobs, SelectedBy(m, includeAllStatuses, today)))
      && multiset(r) <= multiset(allJobs)
      && (forall j :: j in r <==> j in allJobs && Selected(m, includeAllStatuses, today, j))
      && SortedBy(r, SortKeyOf(m), Descending(m))
  {
    var selected := Filter(allJobs, SelectedBy(m, includeAllStatuses, today));
    var r := FilteredJobs(allJobs, m, includeAllStatuses, today);
    SortByCorrect(selected, SortKeyOf(m), Descending(m));
    FilterMembers(allJobs, SelectedBy(m, includeAllStatuses, today));
    FilterSubMultiset(allJobs, SelectedBy(m, includeAllStatuses, today));
    forall j ensures j in r <==> j in selected {
      assert j in r <==> multiset(r)[j] > 0;
      assert j in selected <==> multiset(selected)[j] > 0;
    }
  }

  /** Without a status, and unless all statuses are asked for, only "In Progress" jobs are shown; with one, only that status. */
  lemma {:induction false} FilteredJobsStatus(allJobs: seq<Job>, m: Modifiers, includeAllStatuses: bool, today: int)
    ensures var r := FilteredJobs(allJobs, m, includeAllStatuses, today);
      && (!includeAllStatuses && !Given(m.status) ==> forall j :: j in r ==> j.status == "In Progress")
      && (!includeAllStatuses && Given(m.status) ==> forall j :: j in r ==> j.status == m.status.value)
      && (Given(m.dateRange) ==> forall j :: j in r ==> j.updateDue.Some?)
  {
    FilteredJobsProperties(allJobs, m, includeAllStatuses, today);
  }

  /** Jobs with equal sort keys keep their order in the cache (the sort is stable). */
  lemma {:induction false} FilteredJobsStable(allJobs: seq<Job>, m: Modifiers, includeAllStatuses: bool, today: int, k: SortKey)
    ensures WithKey(FilteredJobs(allJobs, m, includeAllStatuses, today), SortKeyOf(m), k)
         == WithKey(Filter(allJobs, SelectedBy(m, includeAllStatuses, today)), SortKeyOf(m), k)
  {
    SortByStable(Filter(allJobs, SelectedBy(m, includeAllStatuses, today)), SortKeyOf(m), Descending(m), k);
  }

  /** The date ranges are cumulative: what is due today is due by tomorrow, and that by a week from now. */
  lemma {:induction false} DateRangesNest(allJobs: seq<Job>, m: Modifiers, includeAllStatuses: bool, today: int)
    ensures var byToday := FilteredJobs(allJobs, m.(dateRange := Some("today")), includeAllStatuses, today);
            var byTomorrow := FilteredJobs(allJobs, m.(dateRange := Some("tomorrow")), includeAllStatuses, today);
            var byWeek := FilteredJobs(allJobs, m.(dateRange := Some("week")), includeAllStatuses, today);
            multiset(byToday) <= multiset(byTomorrow) && multiset(byTomorrow) <= multiset(byWeek)
  {
    var m1, m2, m3 := m.(dateRange := Some("today")), m.(dateRange := Some("tomorrow")), m.(dateRange := Some("week"));
    var inc := includeAllStatuses;
    RangesNest(m, inc, today);
    SortByCorrect(Filter(allJobs, SelectedBy(m1, inc, today)), SortKeyOf(m1), Descending(m1));
    SortByCorrect(Filter(allJobs, SelectedBy(m2, inc, today)), SortKeyOf(m2), Descending(m2));
    SortByCorrect(Filter(allJobs, SelectedBy(m3, inc, today)), SortKeyOf(m3), Descending(m3));
    FilterMonotone(allJobs, SelectedBy(m1, inc, today), SelectedBy(m2, inc, today));
    FilterMonotone(allJobs, SelectedBy(m2, inc, today), SelectedBy(m3, inc, today));
  }

  /** A job due today is due by tomorrow, and one due by tomorrow is due this week. */
  lemma {:induction false} RangesNest(m: Modifiers, includeAllStatuses: bool, today: int)
    ensures forall j :: SelectedBy(m.(dateRange := Some("today")), includeAllStatuses, today)(j)
                        ==> SelectedBy(m.(dateRange := Some("tomorrow")), includeAllStatuses, today)(j)
    ensures forall j :: SelectedBy(m.(dateRange := Some("tomorrow")), includeAllStatuses, today)(j)
                        ==> SelectedBy(m.(dateRange := Some("week")), includeAllStatuses, today)(j)
  {
    assert "today" != "tomorrow" && "today" != "week" && "tomorrow" != "week";
  }

  /** Ascending by due date, every job due before 9999-12-31 comes before every job with no due date. */
  lemma {:induction false} UndatedJobsLast(allJobs: seq<Job>, m: Modifiers, includeAllStatuses: bool, today: int)
    requires OrElse(m.sortBy, "dueDate") !in {"updated", "jobNumber"} && !Descending(m)
    ensures var r := FilteredJobs(allJobs, m, includeAllStatuses, today);
      forall dated, undated ::
        0 <= dated < |r| && 0 <= undated < |r| && r[undated].updateDue.None?
        && r[dated].updateDue.Some? && r[dated].updateDue.value < FarFutureDay
        ==> dated < undated
  {
    var r := FilteredJobs(allJobs, m, includeAllStatuses, today);
    var key := SortKeyOf(m);
    SortByCorrect(Filter(allJobs, SelectedBy(m, includeAllStatuses, today)), key, false);
    forall dated, undated |
      0 <= dated < |r| && 0 <= undated < |r| && r[undated].updateDue.None?
      && r[dated].updateDue.Some? && r[dated].updateDue.value < FarFutureDay
      ensures dated < undated
    {
      assert key(r[dated]) == NumKey(r[dated].updateDue.value);
      assert key(r[undated]) == NumKey(FarFutureDay);
      SortedOrder(r, key, false, dated, undated);
    }
  }

  /** The worked example: a client filter alone shows only that client's "In Progress" jobs. */
  lemma {:induction false} ClientFilterExample(today: int)
    ensures var one := Job("ONE 001", "", Some("ONE"), "In Progress", "", "", Some(today), None, false);
            var two := Job("ONE 002", "", Some("ONE"), "On Hold", "", "", Some(today), None, false);
            FilteredJobs([one, two], NoModifiers.(client := Some("ONE")), false, today) == [one]
  {
    var one := Job("ONE 001", "", Some("ONE"), "In Progress", "", "", Some(today), None, false);
    var two := Job("ONE 002", "", Some("ONE"), "On Hold", "", "", Some(today), None, false);
    var m := NoModifiers.(client := Some("ONE"));
    var p := SelectedBy(m, false, today);
    assert p(one) && !p(two);
    assert Filter([one, two], p) == [one] by {
      assert [one, two][1..] == [two];
      assert Filter([two], p) == [] + Filter([two][1..], p);
    }
    assert SortBy([one], SortKeyOf(m), Descending(m)) == Insert(one, SortBy([], SortKeyOf(m), Descending(m)), SortKeyOf(m), Descending(m));
  }

  // ----- search -----

  /** The points one term earns: 20, 10, 5 and 2 for a hit in number, name, description and update. */
  function TermScore(job: Job, term: string): (s: int)
    ensures 0 <= s <= 37
  {
    var t := ToLower(term);
    (if Contains(ToLower(job.jobNumber), t) then 20 else 0)
    + (if Contains(ToLower(job.jobName), t) then 10 else 0)
    + (if Contains(ToLower(job.description), t) then 5 else 0)
    + (if Contains(ToLower(job.update), t) then 2 else 0)
  }

  /** The relevance of a job: the sum of its terms' points. */
  function Score(job: Job, terms: seq<string>): int
  {
    if terms == [] then 0 else Score(job, terms[..|terms| - 1]) + TermScore(job, terms[|terms| - 1])
  }

  lemma {:induction false} ScoreBounds(job: Job, terms: seq<string>)
    ensures 0 <= Score(job, terms) <= 37 * |terms|
  {
    if terms != [] {
      ScoreBounds(job, terms[..|terms| - 1]);
    }
  }

  /** A score is positive exactly when some term hits some field. */
  lemma {:induction false} ScorePositive(job: Job, terms: seq<string>)
    ensures Score(job, terms) > 0 <==> exists i :: 0 <= i < |terms| && TermScore(job, terms[i]) > 0
  {
    if terms != [] {
      var init := terms[..|terms| - 1];
      ScorePositive(job, init);
      ScoreBounds(job, init);
      if exists i :: 0 <= i < |init| && TermScore(job, init[i]) > 0 {
        var i :| 0 <= i < |init| && TermScore(job, init[i]) > 0;
        assert terms[i] == init[i];
      }
      if exists i :: 0 <= i < |terms| && TermScore(job, terms[i]) > 0 {
        var i :| 0 <= i < |terms| && TermScore(job, terms[i]) > 0;
        if i < |init| { assert init[i] == terms[i]; }
      }
    }
  }

  /** A job whose number contains every term scores at least as much as one matching them only in its description. */
  lemma {:induction false} NumberHitsOutscoreDescriptionHits(a: Job, b: Job, terms: seq<string>)
    requires forall i :: 0 <= i < |terms| ==> Contains(ToLower(a.jobNumber), ToLower(terms[i]))
    requires forall i :: 0 <= i < |terms| ==>
      !Contains(ToLower(b.jobNumber), ToLower(terms[i])) && !Contains(ToLower(b.jobName), ToLower(terms[i]))
      && !Contains(ToLower(b.update), ToLower(terms[i]))
    ensures Score(a, terms) >= Score(b, terms)
  {
    if terms != [] {
      var init := terms[..|terms| - 1];
      assert forall i :: 0 <= i < |init| ==> init[i] == terms[i];
      NumberHitsOutscoreDescriptionHits(a, b, init);
      assert TermScore(a, terms[|terms| - 1]) >= 20;
      assert TermScore(b, terms[|terms| - 1]) <= 5;
    }
  }

  /** scoreJobMatch: a loop accumulating each term's points. */
  method ScoreJobMatch(job: Job, searchTerms: seq<string>) returns (score: int)
    ensures score == Score(job, searchTerms)
    ensures 0 <= score <= 37 * |searchTerms|
  {
    score := 0;
    for i := 0 to |searchTerms|
      invariant score == Score(job, searchTerms[..i])
    {
      assert searchTerms[..i + 1][..i] == searchTerms[..i];
      score := score + TermScore(job, searchTerms[i]);
    }
    assert searchTerms[..|searchTerms|] == searchTerms;
    ScoreBounds(job, searchTerms);
  }

  function ScoreKey(terms: seq<string>): Job -> SortKey
  {
    j => NumKey(Score(j, terms))
  }

  function Matches(terms: seq<string>): Job -> bool
  {
    j => Score(j, terms) > 0
  }

  /** What searchJobs returns: the client's jobs of every status, or those scoring above zero by descending score. */
  function SearchResult(allJobs: seq<Job>, m: Modifiers, searchTerms: seq<string>, today: int): seq<Job>
  {
    var base := FilteredJobs(allJobs, NoModifiers.(client := m.client), true, today);
    if searchTerms == [] then base
    else SortBy(Filter(base, Matches(searchTerms)), ScoreKey(searchTerms), true)
  }

  /** searchJobs: score every candidate in a loop, keep the positive ones, sort them by score. */
  method SearchJobs(allJobs: seq<Job>, m: Modifiers, searchTerms: seq<string>, today: int)
    returns (result: seq<Job>)
    ensures result == SearchResult(allJobs, m, searchTerms, today)
  {
    var jobs := GetFilteredJobs(allJobs, NoModifiers.(client := m.client), true, today);
    if |searchTerms| == 0 {
      return jobs;
    }
    var kept := KeepScoring(jobs, searchTerms);
    result := SortBy(kept, ScoreKey(searchTerms), true);
  }

  /** The scoring pass of searchJobs: the jobs whose score is positive, in their order. */
  method KeepScoring(jobs: seq<Job>, searchTerms: seq<string>) returns (kept: seq<Job>)
    ensures kept == Filter(jobs, Matches(searchTerms))
  {
    kept := [];
    for i := 0 to |jobs|
      invariant kept == Filter(jobs[..i], Matches(searchTerms))
    {
      var score := ScoreJobMatch(jobs[i], searchTerms);
      assert Matches(searchTerms)(jobs[i]) == (score > 0);
      FilterSnoc(jobs[..i], jobs[i], Matches(searchTerms));
      assert jobs[..i + 1] == jobs[..i] + [jobs[i]];
      if score > 0 {
        kept := kept + [jobs[i]];
      }
    }
    assert jobs[..|jobs|] == jobs;
  }

  /** Search results are the client's cached jobs (any status) with a positive score, best first. */
  lemma {:induction false} SearchResultProperties(allJobs: seq<Job>, m: Modifiers, searchTerms: seq<string>, today: int)
    ensures var r := SearchResult(allJobs, m, searchTerms, today);
      && (forall j :: j in r ==> j in allJobs && ClientStep(m, j))
      && (searchTerms == [] ==> forall j :: j in r <==> j in allJobs && ClientStep(m, j))
      && (searchTerms != [] ==> forall j :: j in r <==> j in allJobs && ClientStep(m, j) && Score(j, searchTerms) > 0)
      && (searchTerms != [] ==>
            forall i, k :: 0 <= i < k < |r| ==> Score(r[i], searchTerms) >= Score(r[k], searchTerms))
  {
    var mc := NoModifiers.(client := m.client);
    var base := FilteredJobs(allJobs, mc, true, today);
    FilteredJobsProperties(allJobs, mc, true, today);
    assert forall j :: Selected(mc, true, today, j) == ClientStep(m, j);
    if searchTerms != [] {
      RankedMatches(base, searchTerms);
    }
  }

  /** Ranking keeps exactly the jobs scoring above zero, highest score first. */
  lemma {:induction false} RankedMatches(base: seq<Job>, searchTerms: seq<string>)
    ensures var r := SortBy(Filter(base, Matches(searchTerms)), ScoreKey(searchTerms), true);
      && (forall j :: j in r <==> j in base && Score(j, searchTerms) > 0)
      && (forall i, k :: 0 <= i < k < |r| ==> Score(r[i], searchTerms) >= Score(r[k], searchTerms))
  {
    var kept := Filter(base, Matches(searchTerms));
    var r := SortBy(kept, ScoreKey(searchTerms), true);
    SortByCorrect(kept, ScoreKey(searchTerms), true);
    FilterMembers(base, Matches(searchTerms));
    forall j ensures j in r <==> j in kept {
      assert j in r <==> multiset(r)[j] > 0;
      assert j in kept <==> multiset(kept)[j] > 0;
    }
    forall i, k | 0 <= i < k < |r| ensures Score(r[i], searchTerms) >= Score(r[k], searchTerms) {
      assert !Precedes(ScoreKey(searchTerms)(r[k]), ScoreKey(searchTerms)(r[i]), true);
    }
  }

  // ----- client picker -----

  datatype Client = Client(code: string, name: string)

  datatype ClientCount = ClientCount(client: Client, jobCount: nat)

  function ActiveFor(code: string): Job -> bool
  {
    (j: Job) => j.clientCode == Some(code) && j.status == "In Progress"
  }

  /** A client with at least one "In Progress" job. */
  function HasActiveJobs(jobs: seq<Job>): Client -> bool
  {
    (c: Client) => |Filter(jobs, ActiveFor(c.code))| > 0
  }

  /** The clients of a count list, in its order. */
  function ClientsOf(r: seq<ClientCount>): seq<Client>
  {
    if r == [] then [] else [r[0].client] + ClientsOf(r[1..])
  }

  /**
   * getClientsWithJobCounts: each client with its number of "In Progress" jobs, omitting
   * clients with none; the clients keep the order of the client list, each listed as often
   * as it appears there.
   */
  function ClientsWithJobCounts(clients: seq<Client>, jobs: seq<Job>): (r: seq<ClientCount>)
    ensures ClientsOf(r) == Filter(clients, HasActiveJobs(jobs))
    ensures forall i :: 0 <= i < |r| ==>
      r[i].jobCount > 0 && r[i].jobCount == |Filter(jobs, ActiveFor(r[i].client.code))| && r[i].client in clients
    ensures forall c :: c in clients && |Filter(jobs, ActiveFor(c.code))| > 0 ==>
      ClientCount(c, |Filter(jobs, ActiveFor(c.code))|) in r
  {
    if clients == [] then []
    else
      var n := |Filter(jobs, ActiveFor(clients[0].code))|;
      var rest := ClientsWithJobCounts(clients[1..], jobs);
      if n > 0 then
        assert ([ClientCount(clients[0], n)] + rest)[1..] == rest;
        [ClientCount(clients[0], n)] + rest
      else rest
  }
}
