/** The rate-limited request queue of services/animeApi.ts: a module-wide FIFO backlog of jobs and a
    `processing` flag, drained one job at a time with a 400 ms pause after each job and a single
    retry, 1500 ms later, of a request answered with HTTP 429.

    Time is a logical clock in milliseconds that only the waits advance (a fetch itself takes no
    time), and the network is a transport oracle: `transport(endpoint, k)` is the reply to the
    k-th request the queue issues. Every caller's promise is a ticket; the completions list records,
    in order, how each ticket's promise was settled. */
module RequestQueue {
  import opened Wrappers

  const RequestSpacingMs: nat := 400
  const RetryDelayMs: nat := 1500
  const RateLimitStatus: int := 429

  /** `response.ok` */
  predicate IsOk(status: int) {
    200 <= status <= 299
  }

  /** What one `fetch` produces: a response whose `.json()` either parses (`Success`) or throws with a
      message (`Failure`), or a network-level failure that makes `fetch` itself throw. */
  datatype Reply<P> = Response(status: int, body: Result<P, string>) | NetworkFailure(message: string)

  /** The errors a caller's promise can be rejected with: `Error('API Rate Limit')`,
      `Error('API Error: <status>')`, or whatever `fetch` or `.json()` threw. */
  datatype FetchError = RateLimited | HttpError(status: int) | Thrown(message: string)

  datatype Settlement<P> = Resolved(payload: P) | Rejected(error: FetchError)

  type Transport<P> = (string, nat) -> Reply<P>

  datatype Job = Job(ticket: nat, endpoint: string)
  datatype Request = Request(endpoint: string, at: nat)
  datatype Completion<P> = Completion(ticket: nat, outcome: Settlement<P>)

  /** The observable part of the queue: the clock, every request issued, every promise settled. */
  datatype History<P> = History(clock: nat, log: seq<Request>, completions: seq<Completion<P>>)

  predicate NeedsRetry<P>(first: Reply<P>) {
    first.Response? && first.status == RateLimitStatus
  }

  /** An ok response whose body parsed. */
  predicate Delivers<P>(r: Reply<P>) {
    r.Response? && IsOk(r.status) && r.body.Success?
  }

  /** A reply that makes `fetch` or `.json()` throw. */
  predicate Throws<P>(r: Reply<P>) {
    r.NetworkFailure? || (r.Response? && IsOk(r.status) && r.body.Failure?)
  }

  /** How one job settles its caller's promise, from the reply to its request and, when that was a
      429, the reply to its one retry (otherwise `retry` is not looked at). */
  function Settle<P>(first: Reply<P>, retry: Reply<P>): (s: Settlement<P>)
    ensures s.Resolved? <==> Delivers(first) || (NeedsRetry(first) && Delivers(retry))
    ensures s.Resolved? ==> s.payload == (if Delivers(first) then first.body.value else retry.body.value)
    ensures s == Rejected(RateLimited) <==> NeedsRetry(first) && retry.Response? && !IsOk(retry.status)
    ensures (s.Rejected? && s.error.HttpError?) <==>
              (first.Response? && !IsOk(first.status) && !NeedsRetry(first))
    ensures s.Rejected? && s.error.HttpError? ==> s.error.status == first.status
    ensures (s.Rejected? && s.error.Thrown?) <==> Throws(first) || (NeedsRetry(first) && Throws(retry))
    ensures first.NetworkFailure? ==> s == Rejected(Thrown(first.message))
    ensures first.Response? && IsOk(first.status) && first.body.Failure? ==> s == Rejected(Thrown(first.body.error))
    ensures NeedsRetry(first) && retry.NetworkFailure? ==> s == Rejected(Thrown(retry.message))
    ensures NeedsRetry(first) && retry.Response? && IsOk(retry.status) && retry.body.Failure? ==>
      s == Rejected(Thrown(retry.body.error))
  {
    match first
    case NetworkFailure(m) => Rejected(Thrown(m))
    case Response(status, body) =>
      if !IsOk(status) then
        if status == RateLimitStatus then
          match retry
          case NetworkFailure(m) => Rejected(Thrown(m))
          case Response(status2, body2) =>
            if !IsOk(status2) then Rejected(RateLimited) else FromBody(body2)
        else Rejected(HttpError(status))
      else FromBody(body)
  }

  function FromBody<P>(body: Result<P, string>): Settlement<P>
  {
    match body
    case Success(p) => Resolved(p)
    case Failure(m) => Rejected(Thrown(m))
  }

  /** One job without the pause that follows it: the request, the retry after a 429, the settlement. */
  function Execute<P>(job: Job, h: History<P>, transport: Transport<P>): History<P>
  {
    var first := transport(job.endpoint, |h.log|);
    var log := h.log + [Request(job.endpoint, h.clock)];
    if NeedsRetry(first) then
      var at := h.clock + RetryDelayMs;
      var retry := transport(job.endpoint, |log|);
      History(at, log + [Request(job.endpoint, at)], h.completions + [Completion(job.ticket, Settle(first, retry))])
    else
      History(h.clock, log, h.completions + [Completion(job.ticket, Settle(first, first))])
  }

  /** One turn of the drain loop: the job, then the 400 ms pause, whatever the outcome. */
  function Step<P>(job: Job, h: History<P>, transport: Transport<P>): History<P>
  {
    var e := Execute(job, h, transport);
    e.(clock := e.clock + RequestSpacingMs)
  }

  /** The drain loop run over a backlog. */
  function Drain<P>(jobs: seq<Job>, h: History<P>, transport: Transport<P>): History<P>
    decreases |jobs|
  {
    if jobs == [] then h else Drain(jobs[1..], Step(jobs[0], h, transport), transport)
  }

  function Tickets<P>(cs: seq<Completion<P>>): (ts: seq<nat>)
    ensures |ts| == |cs| && forall i :: 0 <= i < |cs| ==> ts[i] == cs[i].ticket
  {
    seq(|cs|, i requires 0 <= i < |cs| => cs[i].ticket)
  }

  function JobTickets(jobs: seq<Job>): (ts: seq<nat>)
    ensures |ts| == |jobs| && forall i :: 0 <= i < |jobs| ==> ts[i] == jobs[i].ticket
  {
    seq(|jobs|, i requires 0 <= i < |jobs| => jobs[i].ticket)
  }

  function Range(n: nat): (r: seq<nat>)
    ensures |r| == n && forall i :: 0 <= i < n ==> r[i] == i
  {
    seq(n, i requires 0 <= i < n => i)
  }

  /** Consecutive requests start at least 400 ms apart, and the last one at least 400 ms before `clock`. */
  predicate Spaced(log: seq<Request>, clock: nat) {
    && (forall i :: 0 < i < |log| ==> log[i - 1].at + RequestSpacingMs <= log[i].at)
    && (|log| > 0 ==> log[|log| - 1].at + RequestSpacingMs <= clock)
  }

  /** A job issues one request, or two when the first is answered with 429, settles exactly its own
      ticket, keeps what was logged and settled before, and keeps requests spaced. */
  lemma StepFacts<P>(job: Job, h: History<P>, transport: Transport<P>)
    ensures var s := Step(job, h, transport);
      && s.completions == h.completions + [s.completions[|s.completions| - 1]]
      && s.completions[|s.completions| - 1].ticket == job.ticket
      && s.log[..|h.log|] == h.log
      && |s.log| == |h.log| + (if NeedsRetry(transport(job.endpoint, |h.log|)) then 2 else 1)
      && s.clock >= h.clock + RequestSpacingMs
      && (Spaced(h.log, h.clock) ==> Spaced(s.log, s.clock))
  {
    var s := Step(job, h, transport);
    assert s.log[..|h.log|] == h.log;
  }

  /** The drain settles the backlog's tickets in backlog order, each exactly once, after the
      completions already recorded, which it leaves as they were. */
  lemma {:induction false} DrainSettlesInOrder<P>(jobs: seq<Job>, h: History<P>, transport: Transport<P>)
    ensures var d := Drain(jobs, h, transport);
      && Tickets(d.completions) == Tickets(h.completions) + JobTickets(jobs)
      && d.completions[..|h.completions|] == h.completions
    decreases |jobs|
  {
    if jobs != [] {
      var s := Step(jobs[0], h, transport);
      StepSettles(jobs[0], h, transport);
      DrainSettlesInOrder(jobs[1..], s, transport);
      var c := s.completions[|h.completions|];
      TicketsAppend(h.completions, c);
      var d := Drain(jobs[1..], s, transport);
      assert d == Drain(jobs, h, transport);
      var before, later := Tickets(h.completions), JobTickets(jobs[1..]);
      assert Tickets(s.completions) == before + [c.ticket];
      assert JobTickets(jobs) == [c.ticket] + later;
      assert (before + [c.ticket]) + later == before + ([c.ticket] + later);
      assert d.completions[..|h.completions|] == d.completions[..|s.completions|][..|h.completions|];
    }
  }

  /** A turn of the loop settles exactly the job's own ticket, after the earlier completions. */
  lemma StepSettles<P>(job: Job, h: History<P>, transport: Transport<P>)
    ensures var s := Step(job, h, transport);
      && s.completions == h.completions + [s.completions[|h.completions|]]
      && s.completions[|h.completions|].ticket == job.ticket
  {
  }

  lemma TicketsAppend<P>(cs: seq<Completion<P>>, c: Completion<P>)
    ensures Tickets(cs + [c]) == Tickets(cs) + [c.ticket]
  {
  }

  /** The drain keeps consecutive requests at least 400 ms apart, only adds to the request log,
      issues between one and two requests per job, and lets at least 400 ms pass per job. */
  lemma {:induction false} DrainKeepsSpacing<P>(jobs: seq<Job>, h: History<P>, transport: Transport<P>)
    requires Spaced(h.log, h.clock)
    ensures var d := Drain(jobs, h, transport);
      && Spaced(d.log, d.clock)
      && |h.log| + |jobs| <= |d.log| <= |h.log| + 2 * |jobs|
      && d.log[..|h.log|] == h.log
      && d.clock >= h.clock + RequestSpacingMs * |jobs|
    decreases |jobs|
  {
    if jobs != [] {
      var s := Step(jobs[0], h, transport);
      StepFacts(jobs[0], h, transport);
      DrainKeepsSpacing(jobs[1..], s, transport);
      var d := Drain(jobs, h, transport);
      assert d == Drain(jobs[1..], s, transport);
      assert d.log[..|h.log|] == d.log[..|s.log|][..|h.log|];
    }
  }

  /** Failure isolation: the i-th job of the backlog is settled from the replies to its own request
      (and its own retry) alone, whatever happened to the jobs before it. Its request is the one
      logged right after those of the i jobs ahead of it. */
  lemma {:induction false} DrainOutcomeOwnReplies<P>(jobs: seq<Job>, h: History<P>, transport: Transport<P>, i: nat)
    requires i < |jobs|
    ensures var d := Drain(jobs, h, transport);
      var k := |Drain(jobs[..i], h, transport).log|;
      && |h.completions| + i < |d.completions|
      && |h.log| <= k < |d.log| && d.log[k].endpoint == jobs[i].endpoint
      && d.completions[|h.completions| + i].outcome == OwnOutcome(jobs[i].endpoint, k, transport)
    decreases |jobs|
  {
    var s := Step(jobs[0], h, transport);
    var d := Drain(jobs, h, transport);
    assert d == Drain(jobs[1..], s, transport);
    if i == 0 {
      assert jobs[..0] == [];
      DrainHeadOutcome(jobs, h, transport);
    } else {
      DrainOutcomeOwnReplies(jobs[1..], s, transport, i - 1);
      assert jobs[1..][i - 1] == jobs[i];
      var ahead := jobs[..i];
      assert ahead[0] == jobs[0] && ahead[1..] == jobs[1..][..i - 1];
      assert Drain(ahead, h, transport) == Drain(jobs[1..][..i - 1], s, transport);
      StepFacts(jobs[0], h, transport);
    }
  }

  /** The first job of the backlog makes the first new request and is settled from its replies. */
  lemma DrainHeadOutcome<P>(jobs: seq<Job>, h: History<P>, transport: Transport<P>)
    requires jobs != []
    ensures var d := Drain(jobs, h, transport);
      && |h.completions| < |d.completions|
      && |h.log| < |d.log| && d.log[|h.log|].endpoint == jobs[0].endpoint
      && d.completions[|h.completions|].outcome == OwnOutcome(jobs[0].endpoint, |h.log|, transport)
  {
    var s := Step(jobs[0], h, transport);
    StepFacts(jobs[0], h, transport);
    var d := Drain(jobs, h, transport);
    assert d == Drain(jobs[1..], s, transport);
    DrainSettlesInOrder(jobs[1..], s, transport);
    DrainKeepsSpacingLength(jobs[1..], s, transport);
    var k := |h.log|;
    assert d.log[k] == d.log[..|s.log|][k] == s.log[k];
    assert s.log[k].endpoint == jobs[0].endpoint;
    assert d.completions[|h.completions|] == d.completions[..|s.completions|][|h.completions|];
    assert s.completions[|h.completions|].outcome == OwnOutcome(jobs[0].endpoint, k, transport);
  }

  /** The settlement of a job whose request is the k-th of the log. */
  function OwnOutcome<P>(endpoint: string, k: nat, transport: Transport<P>): Settlement<P>
  {
    var first := transport(endpoint, k);
    Settle(first, if NeedsRetry(first) then transport(endpoint, k + 1) else first)
  }

  /** The queue's invariant over a history and the jobs still waiting: settled tickets followed by
      waiting tickets are the tickets 0..n-1 in the order they were handed out, and the requests
      made so far are spaced. */
  ghost predicate Inv<P>(pending: seq<Job>, h: History<P>, n: nat) {
    && Tickets(h.completions) + JobTickets(pending) == Range(n)
    && Spaced(h.log, h.clock)
  }

  /** One turn of the drain loop keeps the queue's invariant and leaves the rest of the drain to do. */
  lemma StepKeepsValid<P>(pending: seq<Job>, h: History<P>, n: nat, transport: Transport<P>)
    requires pending != []
    requires Inv(pending, h, n)
    ensures Inv(pending[1..], Step(pending[0], h, transport), n)
    ensures Drain(pending[1..], Step(pending[0], h, transport), transport) == Drain(pending, h, transport)
  {
    StepKeepsTickets(pending, h, n, transport);
  }

  /** One turn moves the oldest waiting ticket to the end of the settled ones and keeps the spacing. */
  lemma StepKeepsTickets<P>(pending: seq<Job>, h: History<P>, n: nat, transport: Transport<P>)
    requires pending != []
    requires Tickets(h.completions) + JobTickets(pending) == Range(n) && Spaced(h.log, h.clock)
    ensures var s := Step(pending[0], h, transport);
      Tickets(s.completions) + JobTickets(pending[1..]) == Range(n) && Spaced(s.log, s.clock)
  {
    var s := Step(pending[0], h, transport);
    StepFacts(pending[0], h, transport);
    var last := s.completions[|s.completions| - 1];
    TicketsSnoc(h.completions, last);
    JobTicketsCons(pending);
    var settled, t, waiting := Tickets(h.completions), pending[0].ticket, JobTickets(pending[1..]);
    assert Tickets(s.completions) == settled + [t];
    ConcatAssoc(settled, [t], waiting);
  }

  lemma ConcatAssoc(a: seq<nat>, b: seq<nat>, c: seq<nat>)
    ensures (a + b) + c == a + (b + c)
  {
  }

  lemma TicketsSnoc<P>(cs: seq<Completion<P>>, c: Completion<P>)
    ensures Tickets(cs + [c]) == Tickets(cs) + [c.ticket]
  {
    assert forall i :: 0 <= i < |cs| ==> (cs + [c])[i] == cs[i];
  }

  lemma JobTicketsCons(jobs: seq<Job>)
    requires jobs != []
    ensures JobTickets(jobs) == [jobs[0].ticket] + JobTickets(jobs[1..])
  {
    assert forall i :: 0 < i < |jobs| ==> jobs[1..][i - 1] == jobs[i];
  }

  /** The length facts of DrainKeepsSpacing, which need no spacing of the starting log. */
  lemma {:induction false} DrainKeepsSpacingLength<P>(jobs: seq<Job>, h: History<P>, transport: Transport<P>)
    ensures var d := Drain(jobs, h, transport);
      && |h.log| + |jobs| <= |d.log|
      && d.log[..|h.log|] == h.log
      && |d.completions| == |h.completions| + |jobs|
    decreases |jobs|
  {
    if jobs != [] {
      var s := Step(jobs[0], h, transport);
      StepFacts(jobs[0], h, transport);
      DrainKeepsSpacingLength(jobs[1..], s, transport);
      var d := Drain(jobs, h, transport);
      assert d == Drain(jobs[1..], s, transport);
      assert d.log[..|h.log|] == d.log[..|s.log|][..|h.log|];
    }
  }

  class Queue<P> {
    /** The jobs waiting, oldest first (`queue`). */
    var backlog: seq<Job>
    /** Whether a drain loop is running (`processing`). */
    var processing: bool
    var clock: nat
    var log: seq<Request>
    var completions: seq<Completion<P>>
    /** The ticket the next caller gets. */
    var nextTicket: nat

    /** Every ticket handed out is either settled or waiting, never both, and settled tickets plus
        waiting tickets are the tickets in the order they were handed out; requests are spaced. */
    ghost predicate Valid()
      reads this
    {
      Inv(backlog, State(), nextTicket)
    }

    function State(): History<P>
      reads this
    {
      History(clock, log, completions)
    }

    constructor ()
      ensures Valid()
      ensures backlog == [] && !processing && nextTicket == 0
      ensures State() == History(0, [], [])
    {
      backlog, processing, clock, log, completions, nextTicket := [], false, 0, [], [], 0;
    }

    /** `queue.push(job)`: the caller's promise gets the next ticket. */
    method Submit(endpoint: string) returns (ticket: nat)
      requires Valid()
      modifies this
      ensures Valid()
      ensures ticket == old(nextTicket) && nextTicket == old(nextTicket) + 1
      ensures backlog == old(backlog) + [Job(ticket, endpoint)]
      ensures processing == old(processing) && State() == old(State())
    {
      ticket := nextTicket;
      backlog := backlog + [Job(ticket, endpoint)];
      nextTicket := nextTicket + 1;
      assert JobTickets(backlog) == JobTickets(old(backlog)) + [ticket];
      assert Range(nextTicket) == Range(ticket) + [ticket];
    }

    /** The body of one queued job: fetch, retry once after a 429, settle the promise. */
    method RunJob(job: Job, transport: Transport<P>)
      modifies this`clock, this`log, this`completions
      ensures State() == Execute(job, old(State()), transport)
    {
      var outcome: Settlement<P>;
      var response := transport(job.endpoint, |log|);
      log := log + [Request(job.endpoint, clock)];
      if response.NetworkFailure? {
        outcome := Rejected(Thrown(response.message));
      } else if !IsOk(response.status) {
        if response.status == RateLimitStatus {
          clock := clock + RetryDelayMs;
          var retry := transport(job.endpoint, |log|);
          log := log + [Request(job.endpoint, clock)];
          if retry.NetworkFailure? {
            outcome := Rejected(Thrown(retry.message));
          } else if !IsOk(retry.status) {
            outcome := Rejected(RateLimited);
          } else {
            outcome := FromBody(retry.body);
          }
        } else {
          outcome := Rejected(HttpError(response.status));
        }
      } else {
        outcome := FromBody(response.body);
      }
      completions := completions + [Completion(job.ticket, outcome)];
    }

    /** `processQueue`: returns at once when a drain is already running; otherwise drains the whole
        backlog, oldest job first, and clears the flag once it is empty. */
    method ProcessQueue(transport: Transport<P>)
      requires Valid()
      modifies this
      ensures Valid()
      ensures nextTicket == old(nextTicket)
      ensures old(processing) ==>
        processing && backlog == old(backlog) && State() == old(State())
      ensures !old(processing) ==>
        !processing && backlog == [] && State() == Drain(old(backlog), old(State()), transport)
    {
      if processing {
        return;
      }
      processing := true;
      ghost var goal := Drain(backlog, State(), transport);
      while |backlog| > 0
        invariant Valid() && processing && nextTicket == old(nextTicket)
        invariant Drain(backlog, State(), transport) == goal
        decreases |backlog|
      {
        var job := backlog[0];
        ghost var before, pending := State(), backlog;
        StepKeepsValid(pending, before, nextTicket, transport);
        ghost var after := Step(job, before, transport);
        backlog := backlog[1..];
        RunJob(job, transport);
        clock := clock + RequestSpacingMs;
        assert State() == after;
      }
      processing := false;
    }

    /** `fetchJikan(endpoint)`: queue the job and start the drain; when no drain was running, the new
        job is settled (last) before this returns, so an idle queue restarts on the next call. */
    method FetchJikan(endpoint: string, transport: Transport<P>) returns (ticket: nat)
      requires Valid()
      modifies this
      ensures Valid()
      ensures ticket == old(nextTicket) && nextTicket == old(nextTicket) + 1
      ensures old(processing) ==>
        processing && backlog == old(backlog) + [Job(ticket, endpoint)] && State() == old(State())
      ensures !old(processing) ==>
        && !processing && backlog == []
        && State() == Drain(old(backlog) + [Job(ticket, endpoint)], old(State()), transport)
        && completions[|completions| - 1].ticket == ticket
    {
      ticket := Submit(endpoint);
      ghost var jobs := backlog;
      ProcessQueue(transport);
      if !old(processing) {
        DrainSettlesInOrder(jobs, old(State()), transport);
        assert JobTickets(jobs)[|jobs| - 1] == ticket;
      }
    }
  }
}
