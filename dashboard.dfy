/**
 * The browser state of the dashboard (app.js, "STATE"): the PIN pad, the job
 * cache with its optimistic with-client toggle, and the view and client
 * selections a conversation redirect changes. Timers, the DOM and requests are
 * not modelled: where the source schedules work, a method says that it does and
 * the scheduled step is a method of its own.
 */
module Dashboard {
  import opened Wrappers
  import opened Jobs
  import opened Session
  import opened Conversation

  /** The first index of a job with this number, as `Array.prototype.find`. */
  function FindJob(jobs: seq<Job>, jobNumber: string): (r: Option<nat>)
    ensures r.Some? ==>
      r.value < |jobs| && jobs[r.value].jobNumber == jobNumber
      && forall k :: 0 <= k < r.value ==> jobs[k].jobNumber != jobNumber
    ensures r.None? ==> forall k :: 0 <= k < |jobs| ==> jobs[k].jobNumber != jobNumber
  {
    if jobs == [] then None
    else if jobs[0].jobNumber == jobNumber then Some(0)
    else match FindJob(jobs[1..], jobNumber)
      case None => None
      case Some(i) => Some(i + 1)
  }

  /** The cache with one job's with-client flag set. */
  function SetWithClient(jobs: seq<Job>, i: nat, value: bool): (r: seq<Job>)
    requires i < |jobs|
    ensures |r| == |jobs| && r[i] == jobs[i].(withClient := value)
    ensures forall k :: 0 <= k < |jobs| && k != i ==> r[k] == jobs[k]
  {
    jobs[i := jobs[i].(withClient := value)]
  }

  /** Writing back the old flag undoes the optimistic write exactly. */
  lemma {:induction false} RevertRestores(jobs: seq<Job>, i: nat, value: bool)
    requires i < |jobs|
    ensures SetWithClient(SetWithClient(jobs, i, value), i, jobs[i].withClient) == jobs
  {
    var r := SetWithClient(SetWithClient(jobs, i, value), i, jobs[i].withClient);
    assert forall k :: 0 <= k < |jobs| ==> r[k] == jobs[k];
  }

  /** What a toggle remembers for the failure handler: which job it wrote and its previous flag. */
  datatype PendingToggle = PendingToggle(index: nat, previous: bool)

  class AppState {
    var enteredPin: string
    var currentUser: Option<User>
    var currentView: string
    var allJobs: seq<Job>
    var wipClient: string
    var trackerClient: Option<string>

    /** The PIN buffer never holds more than four digits. */
    ghost predicate Valid()
      reads this
    {
      |enteredPin| <= PinLength
    }

    /** The initial state: no PIN, nobody signed in, the home view, every client on the WIP board. */
    constructor ()
      ensures Valid()
      ensures enteredPin == "" && currentUser.None? && currentView == "home"
      ensures allJobs == [] && wipClient == "all" && trackerClient.None?
    {
      enteredPin := "";
      currentUser := None;
      currentView := "home";
      allJobs := [];
      wipClient := "all";
      trackerClient := None;
    }

    /** enterPin: append a digit unless four are held; the fourth schedules checkPin. */
    method EnterPin(digit: char) returns (checkScheduled: bool)
      requires Valid()
      modifies this
      ensures Valid()
      ensures enteredPin == PinAfterDigit(old(enteredPin), digit)
      ensures checkScheduled <==> |old(enteredPin)| == PinLength - 1
      ensures checkScheduled ==> |enteredPin| == PinLength
      ensures currentUser == old(currentUser) && currentView == old(currentView) && allJobs == old(allJobs)
      ensures wipClient == old(wipClient) && trackerClient == old(trackerClient)
    {
      checkScheduled := false;
      if |enteredPin| >= PinLength {
        return;
      }
      enteredPin := enteredPin + [digit];
      if |enteredPin| == PinLength {
        checkScheduled := true;
      }
    }

    /** deletePin: drop the last digit. */
    method DeletePin()
      requires Valid()
      modifies this
      ensures Valid()
      ensures enteredPin == PinAfterDelete(old(enteredPin))
      ensures currentUser == old(currentUser) && currentView == old(currentView) && allJobs == old(allJobs)
      ensures wipClient == old(wipClient) && trackerClient == old(trackerClient)
    {
      if |enteredPin| > 0 {
        enteredPin := enteredPin[..|enteredPin| - 1];
      }
    }

    /**
     * checkPin: a known PIN signs its user in (and leaves the buffer as it is);
     * an unknown one schedules the buffer to be cleared.
     */
    method CheckPin() returns (clearScheduled: bool)
      requires Valid()
      modifies this
      ensures Valid()
      ensures old(PinUser(enteredPin)).Some? ==> currentUser == old(PinUser(enteredPin)) && !clearScheduled
      ensures old(PinUser(enteredPin)).None? ==> currentUser == old(currentUser) && clearScheduled
      ensures enteredPin == old(enteredPin) && currentView == old(currentView) && allJobs == old(allJobs)
      ensures wipClient == old(wipClient) && trackerClient == old(trackerClient)
    {
      var user := PinUser(enteredPin);
      if user.Some? {
        currentUser := user;
        clearScheduled := false;
      } else {
        clearScheduled := true;
      }
    }

    /** The delayed step after a wrong PIN: empty the buffer. */
    method ClearPin()
      requires Valid()
      modifies this
      ensures Valid()
      ensures enteredPin == ""
      ensures currentUser == old(currentUser) && currentView == old(currentView) && allJobs == old(allJobs)
      ensures wipClient == old(wipClient) && trackerClient == old(trackerClient)
    {
      enteredPin := "";
    }

    /** toggleWipWithClient, optimistic half: set the flag on the first job with this number, remembering the old one. */
    method ToggleWipWithClient(jobNumber: string, isWithClient: bool) returns (pending: Option<PendingToggle>)
      requires Valid()
      modifies this
      ensures Valid()
      ensures FindJob(old(allJobs), jobNumber).None? ==> pending.None? && allJobs == old(allJobs)
      ensures FindJob(old(allJobs), jobNumber).Some? ==>
        var i := FindJob(old(allJobs), jobNumber).value;
        pending == Some(PendingToggle(i, old(allJobs)[i].withClient))
        && allJobs == SetWithClient(old(allJobs), i, isWithClient)
      ensures enteredPin == old(enteredPin) && currentUser == old(currentUser) && currentView == old(currentView)
      ensures wipClient == old(wipClient) && trackerClient == old(trackerClient)
    {
      var found := FindJob(allJobs, jobNumber);
      if found.None? {
        return None;
      }
      var i := found.value;
      pending := Some(PendingToggle(i, allJobs[i].withClient));
      allJobs := SetWithClient(allJobs, i, isWithClient);
    }

    /** toggleWipWithClient, settling half: on a failed request put the remembered flag back. */
    method SettleToggle(pending: Option<PendingToggle>, requestOk: bool)
      requires Valid()
      requires pending.Some? ==> pending.value.index < |allJobs|
      modifies this
      ensures Valid()
      ensures requestOk || pending.None? ==> allJobs == old(allJobs)
      ensures !requestOk && pending.Some? ==>
        allJobs == SetWithClient(old(allJobs), pending.value.index, pending.value.previous)
      ensures enteredPin == old(enteredPin) && currentUser == old(currentUser) && currentView == old(currentView)
      ensures wipClient == old(wipClient) && trackerClient == old(trackerClient)
    {
      if !requestOk && pending.Some? {
        allJobs := SetWithClient(allJobs, pending.value.index, pending.value.previous);
      }
    }

    /** The redirect's delayed step: go to the view, and choose its client for the WIP or tracker view. */
    method ApplyRedirect(r: Redirect)
      requires Valid()
      modifies this
      ensures Valid()
      ensures currentView == r.view
      ensures r.view == "wip" && r.client.Some? ==> wipClient == r.client.value
      ensures r.view != "wip" || r.client.None? ==> wipClient == old(wipClient)
      ensures r.view == "tracker" && r.client.Some? ==> trackerClient == r.client
      ensures r.view != "tracker" || r.client.None? ==> trackerClient == old(trackerClient)
      ensures enteredPin == old(enteredPin) && currentUser == old(currentUser) && allJobs == old(allJobs)
    {
      currentView := r.view;
      if r.client.Some? {
        if r.view == "wip" {
          wipClient := r.client.value;
        } else if r.view == "tracker" {
          trackerClient := r.client;
        }
      }
    }
  }
}
