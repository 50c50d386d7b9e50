/**
 * The serial executor: `commandQueue` and the `isProcessingCommand` flag. At most one job is
 * being processed; jobs start in the order they were pushed, each exactly once, and the
 * flag is released whatever the outcome.
 */
module CommandQueue {

  import opened Options
  import opened BotIdentity
  import opened Jobs
  import opened Completion
  import opened ProductCard

  /** A reply, as a sequence of zero or one outbound messages. */
  function Sent(r: Option<Outbound>): seq<Outbound>
  {
    if r.Some? then [r.value] else []
  }

  /** The messages of a run of replies, in order; a job without a reply adds nothing. */
  function Sends(rs: seq<Option<Outbound>>): (ms: seq<Outbound>)
    ensures |ms| <= |rs|
  {
    if rs == [] then [] else Sends(rs[..|rs| - 1]) + Sent(rs[|rs| - 1])
  }

  /** The reply of each job of a run, settled with the outcome at the same position. */
  function ReplyList(jobs: seq<Job>, outcomes: seq<ProcessResult>, reg: Registry, parse: string -> Parsed): (rs: seq<Option<Outbound>>)
    requires |jobs| == |outcomes|
    ensures |rs| == |jobs|
  {
    seq(|jobs|, i requires 0 <= i < |jobs| && |jobs| == |outcomes| => CompletionReply(jobs[i], outcomes[i], reg, parse))
  }

  /** The messages a run of jobs sends. */
  function Replies(jobs: seq<Job>, outcomes: seq<ProcessResult>, reg: Registry, parse: string -> Parsed): seq<Outbound>
    requires |jobs| == |outcomes|
  {
    Sends(ReplyList(jobs, outcomes, reg, parse))
  }

  /** One more reply adds its message, if any, at the end. */
  lemma SendsSnoc(rs: seq<Option<Outbound>>, r: Option<Outbound>)
    ensures Sends(rs + [r]) == Sends(rs) + Sent(r)
  {
    assert (rs + [r])[..|rs|] == rs;
  }

  lemma PrefixSnoc<T>(s: seq<T>, i: int)
    requires 0 <= i < |s|
    ensures s[..i + 1] == s[..i] + [s[i]]
  {
  }

  /** The replies of a run one job longer end with that job's reply. */
  lemma RepliesSnoc(jobs: seq<Job>, outcomes: seq<ProcessResult>, reg: Registry, parse: string -> Parsed, i: int)
    requires |jobs| == |outcomes| && 0 <= i < |jobs|
    ensures Replies(jobs[..i + 1], outcomes[..i + 1], reg, parse)
      == Replies(jobs[..i], outcomes[..i], reg, parse) + Sent(CompletionReply(jobs[i], outcomes[i], reg, parse))
  {
    var rs := ReplyList(jobs[..i + 1], outcomes[..i + 1], reg, parse);
    assert rs[..i] == ReplyList(jobs[..i], outcomes[..i], reg, parse);
    assert rs[i] == CompletionReply(jobs[i], outcomes[i], reg, parse);
  }

  /** When every reply is present, each reply's message is at its own position. */
  lemma {:induction false} SendsAllPresent(rs: seq<Option<Outbound>>)
    requires forall i :: 0 <= i < |rs| ==> rs[i].Some?
    ensures |Sends(rs)| == |rs|
    ensures forall i :: 0 <= i < |rs| ==> Some(Sends(rs)[i]) == rs[i]
  {
    if rs != [] {
      var n := |rs| - 1;
      var init := rs[..n];
      SendsAllPresent(init);
      assert Sends(rs) == Sends(init) + [rs[n].value];
      forall i | 0 <= i < |rs|
        ensures Some(Sends(rs)[i]) == rs[i]
      {
        if i < n {
          assert init[i] == rs[i];
        }
      }
    }
  }

  /** Every job of a known type gets its one reply, in job order. */
  lemma RepliesOfKnownJobs(jobs: seq<Job>, outcomes: seq<ProcessResult>, reg: Registry, parse: string -> Parsed)
    requires |jobs| == |outcomes|
    requires forall i :: 0 <= i < |jobs| ==> !jobs[i].jobType.OtherType?
    ensures |Replies(jobs, outcomes, reg, parse)| == |jobs|
    ensures forall i :: 0 <= i < |jobs| ==>
      Some(Replies(jobs, outcomes, reg, parse)[i]) == CompletionReply(jobs[i], outcomes[i], reg, parse)
  {
    var rs := ReplyList(jobs, outcomes, reg, parse);
    forall i | 0 <= i < |rs|
      ensures rs[i].Some?
    {
      assert rs[i] == CompletionReply(jobs[i], outcomes[i], reg, parse);
    }
    SendsAllPresent(rs);
  }

  class JobQueue {

    /** `commandQueue`: the pending jobs, head first. */
    var queue: seq<Job>
    /** `isProcessingCommand`. */
    var busy: bool

    constructor ()
      ensures queue == [] && !busy
    {
      queue := [];
      busy := false;
    }

    /** `commandQueue.push(job)`: appended at the tail; the flag is untouched. */
    method Enqueue(job: Job)
      modifies this
      ensures queue == old(queue) + [job] && busy == old(busy)
    {
      queue := queue + [job];
    }

    /**
     * The start of `processCommandQueue`: nothing happens while a job is being processed or
     * when the queue is empty; otherwise the flag is claimed and the head job taken off.
     */
    method TryStart() returns (job: Option<Job>)
      modifies this
      ensures old(busy) || old(queue) == [] ==> job == None && queue == old(queue) && busy == old(busy)
      ensures !old(busy) && old(queue) != [] ==> job == Some(old(queue)[0]) && queue == old(queue)[1..] && busy
    {
      if busy || queue == [] {
        return None;
      }
      busy := true;
      job := Some(queue[0]);
      queue := queue[1..];
    }

    /** The `finally` of `processCommandQueue`: the flag is released, the queue untouched. */
    method Finish()
      modifies this
      ensures !busy && queue == old(queue)
    {
      busy := false;
    }

    /**
     * One call of `processCommandQueue` with the outcome its process settles with: when it
     * starts the head job, it sends that job's reply and releases the flag.
     */
    method ProcessNext(outcome: ProcessResult, reg: Registry, parse: string -> Parsed) returns (ran: Option<Job>, reply: Option<Outbound>)
      modifies this
      ensures old(busy) || old(queue) == [] ==> ran == None && reply == None && queue == old(queue) && busy == old(busy)
      ensures !old(busy) && old(queue) != [] ==>
        && ran == Some(old(queue)[0])
        && queue == old(queue)[1..]
        && !busy
        && reply == CompletionReply(old(queue)[0], outcome, reg, parse)
    {
      ran := TryStart();
      reply := None;
      if ran.Some? {
        reply := CompletionReply(ran.value, outcome, reg, parse);
        Finish();
      }
    }

    /**
     * Processing until the queue is empty, each call starting the next one, with one outcome
     * per pending job in queue order: every pending job runs once, in push order, and the
     * replies are those of the jobs in that order.
     */
    method Drain(outcomes: seq<ProcessResult>, reg: Registry, parse: string -> Parsed) returns (ran: seq<Job>, replies: seq<Outbound>)
      requires !busy
      requires |outcomes| == |queue|
      modifies this
      ensures ran == old(queue) && queue == [] && !busy
      ensures replies == Replies(old(queue), outcomes, reg, parse)
    {
      ghost var q0 := queue;
      ran, replies := [], [];
      var i := 0;
      while queue != []
        invariant 0 <= i <= |q0| && !busy
        invariant ran == q0[..i] && queue == q0[i..]
        invariant replies == Replies(q0[..i], outcomes[..i], reg, parse)
        decreases |queue|
      {
        var job, reply := ProcessNext(outcomes[i], reg, parse);
        assert job == Some(q0[i]) && reply == CompletionReply(q0[i], outcomes[i], reg, parse);
        RepliesSnoc(q0, outcomes, reg, parse, i);
        PrefixSnoc(q0, i);
        ran := ran + [job.value];
        replies := replies + Sent(reply);
        i := i + 1;
      }
      assert q0[..i] == q0 && outcomes[..i] == outcomes;
    }
  }
}
