/** The purge dispatcher of `plone/cachepurging/purger.py`: per-host queues
    and workers, the single purge request, the synchronous purge, the
    asynchronous enqueue, the worker's per-item retry rule and shutdown.

    Threads run as sequential steps: a worker's `Run` is its thread body up
    to the next point where the real thread would block. The caching
    proxies are a stub: `Reply(net, n)` is the outcome of the n-th request
    a session makes. */
module Purger {
  import opened Text
  import opened Wrappers
  import Urls

  /** A response: its status code and its headers. The headers dictionary is
      case-insensitive: it stores names lower-cased, as `HeaderMap` builds
      it from the response's header lines. */
  datatype Response = Response(status: int, headers: map<string, string>)

  /** What the session's request call does: answer, or raise. */
  datatype Outcome = Answered(resp: Response) | Raised(text: string)

  /** A purge request as it sits on a queue: `(url, httpVerb)`. */
  datatype Request = Request(url: string, verb: string)

  /** A queue entry: a request, or the `None` put there to wake the worker. */
  datatype Item = Job(req: Request) | Wake

  /** The dictionary key `(host, scheme)` that selects a queue and a worker. */
  datatype HostKey = HostKey(host: string, scheme: string)

  /** What the caching proxies answer: the n-th request of a session gets
      `replies[n]`, and every request after the listed ones gets `otherwise`. */
  datatype Network = Network(replies: seq<Outcome>, otherwise: Outcome)

  function Reply(net: Network, n: nat): Outcome
  {
    if n < |net.replies| then net.replies[n] else net.otherwise
  }

  /** What `purge` gives back: the status with the two header values, or
      the exception raised by the request. */
  datatype PurgeResult = Purged(status: int, xcache: string, xerror: string) | Failed(text: string)

  /** What `purgeSync` returns: an HTTP status or the string "ERROR". */
  datatype Status = Code(code: int) | Error
  datatype SyncResult = SyncResult(status: Status, xcache: string, xerror: string)

  /** The exceptions `getQueueAndWorker` can raise. */
  datatype LookupError = ValueError | KeyError
  datatype Lookup = Found(queue: HostQueue, worker: Worker) | Refused(error: LookupError)

  /** What happens to a call of `purgeAsync`. */
  datatype AsyncResult = Queued | Discarded(warned: bool) | NotQueued(error: LookupError)

  const StatusOk := 200
  const StatusNotFound := 404
  const MaxAttempts: nat := 5
  const CacheHeader := "x-cache"
  /** The backlog a `DefaultPurger()` gets: no bound on its queues. */
  const DefaultBacklog := 0
  /** The error headers a `DefaultPurger()` reads. */
  const DefaultErrorHeaders: seq<string> := ["x-squid-error"]
  /** The verb `purge`, `purgeSync` and `purgeAsync` use unless told otherwise. */
  const DefaultVerb := "PURGE"

  // ---------------------------------------------------------------------
  // Headers

  /** `headers.get(name, "")` on a case-insensitive header dictionary. */
  function Header(headers: map<string, string>, name: string): string
  {
    var key := Lower(name);
    if key in headers then headers[key] else ""
  }

  /** Every name in the dictionary is stored lower-cased. */
  predicate LowerKeys(headers: map<string, string>)
  {
    forall k :: k in headers ==> Lower(k) == k
  }

  /** The case-insensitive dictionary filled from the header lines in order:
      each name is stored lower-cased, and a line whose name is already
      there, in any case, adds its value after a `", "`. */
  function HeaderMap(fields: seq<(string, string)>): (h: map<string, string>)
    ensures LowerKeys(h)
    ensures forall i :: 0 <= i < |fields| ==> Lower(fields[i].0) in h
  {
    if |fields| == 0 then map[]
    else
      var init := fields[..|fields| - 1];
      var last := fields[|fields| - 1];
      var h := HeaderMap(init);
      var key := Lower(last.0);
      LowerIdempotent(last.0);
      assert forall i :: 0 <= i < |init| ==> init[i] == fields[i];
      h[key := if key in h then h[key] + ", " + last.1 else last.1]
  }

  /** The values of the header lines whose name is `name` in any case, in
      the order of the lines. */
  function Matching(fields: seq<(string, string)>, name: string): seq<string>
  {
    if |fields| == 0 then []
    else
      var last := fields[|fields| - 1];
      Matching(fields[..|fields| - 1], name) + (if Lower(last.0) == Lower(name) then [last.1] else [])
  }

  /** Looking a name up in the dictionary gives the values of all header
      lines with that name in any case, joined with `", "` in line order,
      and `""` when there is none. */
  lemma {:induction false} HeaderMapLookup(fields: seq<(string, string)>, name: string)
    ensures Lower(name) in HeaderMap(fields) <==> |Matching(fields, name)| > 0
    ensures Header(HeaderMap(fields), name) == Join(Matching(fields, name), ", ")
  {
    if |fields| > 0 {
      var init := fields[..|fields| - 1];
      var last := fields[|fields| - 1];
      var m := Matching(init, name);
      HeaderMapLookup(init, name);
      if Lower(last.0) != Lower(name) {
        assert Matching(fields, name) == m + [] == m;
      } else if |m| == 0 {
        assert Matching(fields, name) == [last.1];
      } else {
        assert Matching(fields, name) == m + [last.1];
        JoinSnoc(m, last.1, ", ");
      }
    }
  }

  /** Header names are matched without regard to ASCII case. */
  lemma HeaderIgnoresCase(headers: map<string, string>, name: string)
    ensures Header(headers, Lower(name)) == Header(headers, name)
  {
    LowerIdempotent(name);
  }

  /** `xcache` is the `x-cache` entry, or `""` when the response has none. */
  lemma CacheHeaderLookup(headers: map<string, string>)
    ensures Header(headers, CacheHeader) == if "x-cache" in headers then headers["x-cache"] else ""
  {
    assert Lower(CacheHeader) == "x-cache";
  }

  /** The value of the first header in `names` that is present and non-empty. */
  function FirstErrorHeader(headers: map<string, string>, names: seq<string>): string
  {
    if |names| == 0 then ""
    else if Header(headers, names[0]) != "" then Header(headers, names[0])
    else FirstErrorHeader(headers, names[1..])
  }

  /** `FirstErrorHeader` is empty exactly when every listed header is, and
      otherwise it is the value of the earliest non-empty one. */
  lemma {:induction false} FirstErrorHeaderIsFirstHit(headers: map<string, string>, names: seq<string>)
    ensures FirstErrorHeader(headers, names) == "" <==>
            forall j :: 0 <= j < |names| ==> Header(headers, names[j]) == ""
    ensures FirstErrorHeader(headers, names) != "" ==>
            exists k :: 0 <= k < |names| && Header(headers, names[k]) == FirstErrorHeader(headers, names) &&
                        forall j :: 0 <= j < k ==> Header(headers, names[j]) == ""
  {
    if |names| > 0 {
      FirstErrorHeaderIsFirstHit(headers, names[1..]);
      if Header(headers, names[0]) == "" && FirstErrorHeader(headers, names[1..]) != "" {
        var k :| 0 <= k < |names[1..]| && Header(headers, names[1..][k]) == FirstErrorHeader(headers, names[1..]) &&
                 forall j :: 0 <= j < k ==> Header(headers, names[1..][j]) == "";
        assert Header(headers, names[k + 1]) == FirstErrorHeader(headers, names);
        assert forall j :: 0 <= j < k + 1 ==> Header(headers, names[j]) == "" by {
          forall j | 0 <= j < k + 1 ensures Header(headers, names[j]) == "" {
            if j > 0 { assert names[j] == names[1..][j - 1]; }
          }
        }
      }
      if FirstErrorHeader(headers, names) == "" {
        forall j | 0 <= j < |names| ensures Header(headers, names[j]) == "" {
          if j > 0 { assert names[j] == names[1..][j - 1]; }
        }
      }
    }
  }

  /** Headers listed after the first non-empty one are never consulted. */
  lemma {:induction false} FirstErrorHeaderIgnoresLater(headers: map<string, string>, names: seq<string>, later: seq<string>)
    requires |names| > 0 && Header(headers, names[|names| - 1]) != ""
    ensures FirstErrorHeader(headers, names + later) == FirstErrorHeader(headers, names)
  {
    if Header(headers, names[0]) == "" {
      assert |names| > 1;
      assert (names + later)[1..] == names[1..] + later;
      FirstErrorHeaderIgnoresLater(headers, names[1..], later);
    }
  }

  // ---------------------------------------------------------------------
  // The per-item retry rule

  /** An outcome after which the worker is done with the item: the request
      raised, or answered 200 or 404. */
  predicate Conclusive(o: Outcome)
  {
    o.Raised? || o.resp.status == StatusOk || o.resp.status == StatusNotFound
  }

  /** How many requests the worker makes for one item when its session has made
      `start` requests before and at most `budget` attempts remain. */
  function ItemAttempts(net: Network, start: nat, budget: nat): nat
    decreases budget
  {
    if budget == 0 then 0
    else if Conclusive(Reply(net, start)) then 1
    else 1 + ItemAttempts(net, start + 1, budget - 1)
  }

  /** At least one and at most `budget` attempts are made; every attempt but
      the last was inconclusive, and the last was conclusive unless the
      budget ran out. */
  lemma {:induction false} ItemAttemptsRule(net: Network, start: nat, budget: nat)
    requires budget > 0
    ensures 1 <= ItemAttempts(net, start, budget) <= budget
    ensures forall i :: start <= i < start + ItemAttempts(net, start, budget) - 1 ==> !Conclusive(Reply(net, i))
    ensures ItemAttempts(net, start, budget) < budget ==>
            Conclusive(Reply(net, start + ItemAttempts(net, start, budget) - 1))
    decreases budget
  {
    if budget > 1 && !Conclusive(Reply(net, start)) {
      ItemAttemptsRule(net, start + 1, budget - 1);
    }
  }

  /** One attempt, made at position `start + i` of the session: it is the
      last when conclusive, and otherwise one more follows. */
  lemma ItemAttemptsShift(net: Network, start: nat, budget: nat, i: nat)
    requires i < budget
    ensures Conclusive(Reply(net, start + i)) ==> i + ItemAttempts(net, start + i, budget - i) == i + 1
    ensures !Conclusive(Reply(net, start + i)) ==>
            i + ItemAttempts(net, start + i, budget - i) == (i + 1) + ItemAttempts(net, start + (i + 1), budget - (i + 1))
  {
  }

  /** When the attempt at position `k` is the first conclusive one, exactly
      `k - start + 1` attempts are made. */
  lemma {:induction false} ItemAttemptsFirstConclusive(net: Network, start: nat, budget: nat, k: nat)
    requires start <= k < start + budget && Conclusive(Reply(net, k))
    requires forall i :: start <= i < k ==> !Conclusive(Reply(net, i))
    ensures ItemAttempts(net, start, budget) == k - start + 1
    decreases budget
  {
    if k > start {
      ItemAttemptsFirstConclusive(net, start + 1, budget - 1, k);
    }
  }

  /** When no attempt is conclusive, the whole budget is spent. */
  lemma {:induction false} ItemAttemptsNoneConclusive(net: Network, start: nat, budget: nat)
    requires forall i :: start <= i < start + budget ==> !Conclusive(Reply(net, i))
    ensures ItemAttempts(net, start, budget) == budget
    decreases budget
  {
    if budget > 0 {
      ItemAttemptsNoneConclusive(net, start + 1, budget - 1);
    }
  }

  // ---------------------------------------------------------------------
  // What a worker does with its queue

  function Repeat(r: Request, k: nat): (s: seq<Request>)
    ensures |s| == k && forall i :: 0 <= i < k ==> s[i] == r
  {
    seq(k, i => r)
  }

  lemma RepeatSnoc(r: Request, k: nat)
    ensures Repeat(r, k) + [r] == Repeat(r, k + 1)
  {
  }

  /** How far a worker that is not stopping gets through `items`: how many
      it takes off the queue, the requests it sends, and whether it ends. */
  datatype Progress = Progress(consumed: nat, sent: seq<Request>, finished: bool)

  function Drain(items: seq<Item>, net: Network, start: nat, budget: nat): (p: Progress)
    ensures p.consumed <= |items|
    decreases |items|
  {
    if |items| == 0 then Progress(0, [], false)
    else if items[0].Wake? then Progress(1, [], true)
    else
      var r := items[0].req;
      var k := ItemAttempts(net, start, budget);
      var rest := Drain(items[1..], net, start + k, budget);
      Progress(1 + rest.consumed, Repeat(r, k) + rest.sent, rest.finished)
  }

  /** The progress of a worker that has already taken `consumed` entries
      and sent `log`, and then makes progress `rest`. */
  function Resumed(consumed: nat, log: seq<Request>, rest: Progress): Progress
  {
    Progress(consumed + rest.consumed, log + rest.sent, rest.finished)
  }

  lemma ResumedTwice(c1: nat, log1: seq<Request>, c2: nat, log2: seq<Request>, rest: Progress)
    ensures Resumed(c1, log1, Resumed(c2, log2, rest)) == Resumed(c1 + c2, log1 + log2, rest)
  {
    assert log1 + (log2 + rest.sent) == (log1 + log2) + rest.sent;
  }

  /** A request at the head of the queue costs its attempts, then the worker
      goes on with the rest. */
  lemma DrainJob(items: seq<Item>, net: Network, start: nat, budget: nat)
    requires |items| > 0 && items[0].Job?
    ensures var k := ItemAttempts(net, start, budget);
            Drain(items, net, start, budget) == Resumed(1, Repeat(items[0].req, k), Drain(items[1..], net, start + k, budget))
  {
  }

  /** One more request taken off the queue keeps the split of the total
      progress into what is done and what remains. */
  lemma DrainAdvance(total: Progress, items: seq<Item>, consumed: nat, log: seq<Request>, net: Network,
                     at: nat, after: nat, budget: nat)
    requires consumed < |items| && items[consumed].Job?
    requires after == at + ItemAttempts(net, at, budget)
    requires total == Resumed(consumed, log, Drain(items[consumed..], net, at, budget))
    ensures var r := items[consumed].req;
            var k := ItemAttempts(net, at, budget);
            total == Resumed(consumed + 1, log + Repeat(r, k), Drain(items[consumed + 1..], net, after, budget))
  {
    var r := items[consumed].req;
    var k := ItemAttempts(net, at, budget);
    assert items[consumed..][1..] == items[consumed + 1..];
    DrainJob(items[consumed..], net, at, budget);
    ResumedTwice(consumed, log, 1, Repeat(r, k), Drain(items[consumed + 1..], net, at + k, budget));
  }

  /** The requests queued before the first wake-up entry. */
  function Pending(items: seq<Item>): seq<Request>
  {
    if |items| == 0 || items[0].Wake? then [] else [items[0].req] + Pending(items[1..])
  }

  /** The number of attempts spent on each pending request. */
  function AttemptCounts(items: seq<Item>, net: Network, start: nat, budget: nat): seq<nat>
    decreases |items|
  {
    if |items| == 0 || items[0].Wake? then []
    else
      var k := ItemAttempts(net, start, budget);
      [k] + AttemptCounts(items[1..], net, start + k, budget)
  }

  /** Each request repeated as often as its count says, in order. */
  function Expand(rs: seq<Request>, counts: seq<nat>): seq<Request>
  {
    if |rs| == 0 || |counts| == 0 then [] else Repeat(rs[0], counts[0]) + Expand(rs[1..], counts[1..])
  }

  /** The worker ends exactly when the queue holds a wake-up entry; it then
      takes everything up to and including the first one, and otherwise it
      empties the queue. */
  lemma {:induction false} DrainStopsAtWake(items: seq<Item>, net: Network, start: nat, budget: nat)
    ensures Drain(items, net, start, budget).finished <==> Wake in items
    ensures Drain(items, net, start, budget).finished ==>
            var c := Drain(items, net, start, budget).consumed;
            c >= 1 && items[c - 1] == Wake && Wake !in items[..c - 1]
    ensures !Drain(items, net, start, budget).finished ==> Drain(items, net, start, budget).consumed == |items|
  {
    if |items| > 0 && items[0].Job? {
      var k := ItemAttempts(net, start, budget);
      DrainStopsAtWake(items[1..], net, start + k, budget);
      assert items == [items[0]] + items[1..];
      var c := Drain(items, net, start, budget).consumed;
      if Drain(items, net, start, budget).finished {
        assert items[..c - 1] == [items[0]] + items[1..][..c - 2];
      }
    }
  }

  /** Requests reach the network in queue order, each one between one and
      `budget` times. */
  lemma {:induction false} DrainIsFifo(items: seq<Item>, net: Network, start: nat, budget: nat)
    requires budget > 0
    ensures |AttemptCounts(items, net, start, budget)| == |Pending(items)|
    ensures forall i :: 0 <= i < |AttemptCounts(items, net, start, budget)| ==>
              1 <= AttemptCounts(items, net, start, budget)[i] <= budget
    ensures Drain(items, net, start, budget).sent == Expand(Pending(items), AttemptCounts(items, net, start, budget))
  {
    if |items| > 0 && items[0].Job? {
      var k := ItemAttempts(net, start, budget);
      ItemAttemptsRule(net, start, budget);
      DrainIsFifo(items[1..], net, start + k, budget);
    }
  }

  /** Expanding by counts between 1 and `budget` keeps the length
      between `|rs|` and `budget * |rs|`. */
  lemma {:induction false} ExpandLength(rs: seq<Request>, counts: seq<nat>, budget: nat)
    requires |counts| == |rs|
    requires forall i :: 0 <= i < |counts| ==> 1 <= counts[i] <= budget
    ensures |rs| <= |Expand(rs, counts)| <= budget * |rs|
  {
    if |rs| > 0 {
      ExpandLength(rs[1..], counts[1..], budget);
    }
  }

  // ---------------------------------------------------------------------
  // The queue: `queue.Queue(maxsize)` as the dispatcher uses it

  class HostQueue {
    const maxsize: int
    var items: seq<Item>

    /** `queue.full()`: a positive `maxsize` bounds the queue. */
    predicate Full()
      reads this
    {
      maxsize > 0 && |items| >= maxsize
    }

    constructor (maxsize: int)
      ensures this.maxsize == maxsize && items == []
    {
      this.maxsize := maxsize;
      items := [];
    }

    /** `put(x, block=False)`: `ok` is false where the source raises `Full`. */
    method PutNowait(x: Item) returns (ok: bool)
      modifies this
      ensures ok == !old(Full())
      ensures items == if ok then old(items) + [x] else old(items)
    {
      ok := !Full();
      if ok {
        items := items + [x];
      }
    }

    /** `get()`: the oldest entry; `None` where the real call would block. */
    method Get() returns (x: Option<Item>)
      modifies this
      ensures old(items) == [] ==> x == None && items == []
      ensures old(items) != [] ==> x == Some(old(items)[0]) && items == old(items)[1..]
    {
      if items == [] {
        x := None;
      } else {
        x := Some(items[0]);
        items := items[1..];
      }
    }
  }

  /** With the default backlog of 0 a queue is never full, so no purge is
      dropped. */
  lemma DefaultBacklogNeverFull(q: HostQueue)
    requires q.maxsize == DefaultBacklog
    ensures !q.Full()
  {
  }

  // ---------------------------------------------------------------------
  // The worker thread

  class Worker {
    const host: string
    const scheme: string
    const queue: HostQueue
    const producer: DefaultPurger
    /** The attempts the retry loop makes on one request. */
    const attempts: nat
    var stopping: bool
    /** The thread body has returned. */
    var finished: bool
    /** The thread is blocked inside `get()` on its empty queue. */
    var parked: bool
    /** The requests the worker's session has made, oldest first. */
    var sent: seq<Request>

    constructor (queue: HostQueue, host: string, scheme: string, producer: DefaultPurger)
      ensures this.queue == queue && this.host == host && this.scheme == scheme && this.producer == producer
      ensures attempts == MaxAttempts
      ensures !stopping && !finished && !parked && sent == []
    {
      attempts := MaxAttempts;
      this.host := host;
      this.scheme := scheme;
      this.queue := queue;
      this.producer := producer;
      stopping := false;
      finished := false;
      parked := false;
      sent := [];
    }

    method Stop()
      modifies this`stopping
      ensures stopping
    {
      stopping := true;
    }

    /** The retry loop for one item: at most `attempts` requests, ending
        early on 200, 404 or a raised request, and none at all once
        `stopping` is set. */
    method PurgeItem(r: Request, net: Network)
      modifies this`sent
      ensures sent == old(sent) + Repeat(r, if stopping then 0 else ItemAttempts(net, |old(sent)|, attempts))
    {
      ghost var s0 := |sent|;
      var i := 0;
      while i < attempts
        invariant 0 <= i <= attempts
        invariant stopping ==> i == 0
        invariant sent == old(sent) + Repeat(r, i)
        invariant ItemAttempts(net, s0, attempts) == i + ItemAttempts(net, s0 + i, attempts - i)
      {
        if stopping {
          break;
        }
        var outcome := Reply(net, |sent|);
        ItemAttemptsShift(net, s0, attempts, i);
        sent := sent + [r];
        RepeatSnoc(r, i);
        var result := producer.Purge(outcome);
        if result.Failed? {
          // Every exception discards the item.
          break;
        }
        if result.status == StatusOk {
          break;
        }
        if result.status == StatusNotFound {
          break;
        }
        i := i + 1;
      }
    }

    /** The thread body, up to the point where it blocks in `get()` on an
        empty queue (it then returns `parked`, with `finished` false) or
        ends. A parked worker resumes inside `get()`: the entry it receives
        is taken before `stopping` is tested again, so a stopping worker
        takes exactly one entry, the wake-up entry or a request it then
        drops, and ends. */
    method Run(net: Network)
      requires HostKey(host, scheme) in producer.queues && producer.queues[HostKey(host, scheme)] == queue
      modifies this`sent, this`finished, this`parked, queue
      ensures old(finished) ==>
                finished && parked == old(parked) && sent == old(sent) && queue.items == old(queue.items)
      ensures !old(finished) && old(stopping) && !old(parked) ==>
                finished && !parked && sent == old(sent) && queue.items == old(queue.items)
      ensures !old(finished) && old(stopping) && old(parked) ==>
                && sent == old(sent)
                && (old(queue.items) == [] ==> !finished && parked && queue.items == [])
                && (old(queue.items) != [] ==> finished && !parked && queue.items == old(queue.items)[1..])
      ensures !old(finished) && !old(stopping) ==>
                var p := Drain(old(queue.items), net, |old(sent)|, attempts);
                && queue.items == old(queue.items)[p.consumed..] && sent == old(sent) + p.sent
                && finished == p.finished && parked == !p.finished
    {
      if finished {
        return;
      }
      if parked && stopping {
        // Inside `get()`: the entry handed over is taken, and dropped if it
        // is a request, before `stopping` ends the loop.
        var item := queue.Get();
        if item.Some? {
          parked := false;
          finished := true;
        }
        return;
      }
      // A parked worker that is not stopping resumes inside `get()`, which
      // is where the loop begins.
      Serve(net);
    }

    /** The loop of the thread body: `while not self.stopping`, with the
        `get()` each round begins with. A worker parked inside `get()` that
        is stopping does not start here: it takes an entry first (`Run`). */
    method Serve(net: Network)
      requires !finished && !(parked && stopping)
      requires HostKey(host, scheme) in producer.queues && producer.queues[HostKey(host, scheme)] == queue
      modifies this`sent, this`finished, this`parked, queue
      ensures old(stopping) ==>
                finished && parked == old(parked) && sent == old(sent) && queue.items == old(queue.items)
      ensures !old(stopping) ==>
                var p := Drain(old(queue.items), net, |old(sent)|, attempts);
                && queue.items == old(queue.items)[p.consumed..] && sent == old(sent) + p.sent
                && finished == p.finished && parked == !p.finished
    {
      var currentQueue := producer.queues[HostKey(host, scheme)];
      ghost var items0 := currentQueue.items;
      ghost var s0 := |sent|;
      ghost var consumed: nat := 0;
      ghost var log: seq<Request> := [];
      ghost var total := Drain(items0, net, s0, attempts);
      assert total == Drain(old(queue.items), net, |old(sent)|, attempts);
      while !stopping
        invariant !finished && stopping == old(stopping)
        invariant consumed <= |items0| && currentQueue.items == items0[consumed..]
        invariant sent == old(sent) + log
        invariant stopping ==> consumed == 0 && log == [] && parked == old(parked)
        invariant total == Resumed(consumed, log, Drain(items0[consumed..], net, |sent|, attempts))
        decreases |items0| - consumed
      {
        var item := currentQueue.Get();
        if item.None? {
          // The real thread blocks here until something is queued.
          assert items0[consumed..] == [];
          assert total == Progress(consumed, log, false);
          parked := true;
          return;
        }
        parked := false;
        if item.value.Wake? {
          assert Drain(items0[consumed..], net, |sent|, attempts) == Progress(1, [], true);
          consumed := consumed + 1;
          assert total == Progress(consumed, log, true);
          break;
        }
        var r := item.value.req;
        ghost var before := sent;
        ghost var k := ItemAttempts(net, |sent|, attempts);
        PurgeItem(r, net);
        assert sent == before + Repeat(r, k);
        assert |sent| == |before| + k;
        DrainAdvance(total, items0, consumed, log, net, |before|, |sent|, attempts);
        assert sent == old(sent) + (log + Repeat(r, k));
        consumed := consumed + 1;
        log := log + Repeat(r, k);
      }
      finished := true;
    }
  }

  // ---------------------------------------------------------------------
  // The dispatcher

  /** The `(host, scheme)` key of a URL. */
  function KeyOf(url: string): HostKey
  {
    var parts := Urls.UrlParse(url);
    HostKey(parts.netloc, parts.scheme)
  }

  class DefaultPurger {
    const backlog: int
    const errorHeaders: seq<string>
    var queues: map<HostKey, HostQueue>
    var workers: map<HostKey, Worker>

    /** Every queue has the configured capacity, every worker knows its key,
        its dispatcher and, when the key has a queue, that queue; no queue
        serves two keys. */
    ghost predicate Valid()
      reads this
    {
      && (forall k :: k in queues ==> queues[k].maxsize == backlog)
      && (forall k :: k in workers ==>
            workers[k].host == k.host && workers[k].scheme == k.scheme && workers[k].producer == this
            && workers[k].attempts == MaxAttempts)
      && (forall k :: k in queues && k in workers ==> workers[k].queue == queues[k])
      && (forall k, k' :: k in queues && k' in queues && k != k' ==> queues[k] != queues[k'])
    }

    /** Both dictionaries have the same keys. */
    ghost predicate SameKeys()
      reads this
    {
      queues.Keys == workers.Keys
    }

    constructor (backlog: int, errorHeaders: seq<string>)
      ensures Valid() && SameKeys()
      ensures this.backlog == backlog && this.errorHeaders == errorHeaders
      ensures queues == map[] && workers == map[]
    {
      this.backlog := backlog;
      this.errorHeaders := errorHeaders;
      queues := map[];
      workers := map[];
    }

    /** One request's outcome with the two headers read off the response. */
    method Purge(outcome: Outcome) returns (r: PurgeResult)
      ensures outcome.Raised? ==> r == Failed(outcome.text)
      ensures outcome.Answered? ==>
                r == Purged(outcome.resp.status, Header(outcome.resp.headers, CacheHeader),
                            FirstErrorHeader(outcome.resp.headers, errorHeaders))
    {
      if outcome.Raised? {
        return Failed(outcome.text);
      }
      var resp := outcome.resp;
      var xcache := Header(resp.headers, CacheHeader);
      var xerror := "";
      var i := 0;
      while i < |errorHeaders|
        invariant 0 <= i <= |errorHeaders|
        invariant xerror == ""
        invariant FirstErrorHeader(resp.headers, errorHeaders) == FirstErrorHeader(resp.headers, errorHeaders[i..])
      {
        assert errorHeaders[i..][1..] == errorHeaders[i + 1..];
        xerror := Header(resp.headers, errorHeaders[i]);
        if xerror != "" {
          break;
        }
        i := i + 1;
      }
      r := Purged(resp.status, xcache, xerror);
    }

    /** A single request on a fresh session; any exception becomes the
        status "ERROR" with an empty cache header and the error text. The
        URL and verb only address the request, so the outcome `net` gives
        does not depend on them and the body never reads them. */
    method PurgeSync(url: string, verb: string, net: Network) returns (r: SyncResult)
      ensures Reply(net, 0).Raised? ==>
                r == SyncResult(Error, "", Reply(net, 0).text)
      ensures Reply(net, 0).Answered? ==>
                var resp := Reply(net, 0).resp;
                r == SyncResult(Code(resp.status), Header(resp.headers, CacheHeader),
                                FirstErrorHeader(resp.headers, errorHeaders))
    {
      var outcome := Reply(net, 0);
      var result := Purge(outcome);
      match result
      case Purged(status, xcache, xerror) =>
        r := SyncResult(Code(status), xcache, xerror);
      case Failed(text) =>
        r := SyncResult(Error, "", text);
    }

    /** The queue and worker for the URL's key, both created on first use. */
    method GetQueueAndWorker(url: string) returns (r: Lookup)
      requires Valid()
      modifies this
      ensures Valid()
      ensures KeyOf(url) in old(queues) ==> queues == old(queues) && workers == old(workers)
      ensures KeyOf(url) in old(queues) && KeyOf(url) in old(workers) ==>
                r == Found(old(queues)[KeyOf(url)], old(workers)[KeyOf(url)])
      ensures KeyOf(url) in old(queues) && KeyOf(url) !in old(workers) ==> r == Refused(KeyError)
      ensures KeyOf(url) !in old(queues) && KeyOf(url) in old(workers) ==>
                r == Refused(ValueError) && queues == old(queues) && workers == old(workers)
      ensures KeyOf(url) !in old(queues) && KeyOf(url) !in old(workers) ==>
                && r.Found? && fresh(r.queue) && fresh(r.worker)
                && queues == old(queues)[KeyOf(url) := r.queue]
                && workers == old(workers)[KeyOf(url) := r.worker]
                && r.queue.items == [] && !r.worker.stopping && !r.worker.finished && !r.worker.parked
                && r.worker.sent == []
      ensures old(SameKeys()) ==> SameKeys() && r.Found?
      ensures r.Found? ==> KeyOf(url) in queues && KeyOf(url) in workers &&
                           r.queue == queues[KeyOf(url)] && r.worker == workers[KeyOf(url)]
    {
      var key := KeyOf(url);
      if key !in queues {
        // Under `queueLock` in the source, with a second test of the key.
        if key in workers {
          return Refused(ValueError);
        }
        var q := new HostQueue(backlog);
        var w := new Worker(q, key.host, key.scheme, this);
        queues := queues[key := q];
        workers := workers[key := w];
      }
      if key !in workers {
        return Refused(KeyError);
      }
      r := Found(queues[key], workers[key]);
    }

    /** Queue `(url, verb)` for the URL's worker without blocking; a full
        queue drops it, with a warning unless `debugMode` is set. */
    method PurgeAsync(url: string, verb: string, debugMode: bool) returns (r: AsyncResult)
      requires Valid()
      modifies this, queues.Values
      ensures Valid()
      ensures old(SameKeys()) ==> SameKeys() && !r.NotQueued?
      ensures r.NotQueued? <==> ((KeyOf(url) in old(queues)) != (KeyOf(url) in old(workers)))
      ensures !r.NotQueued? ==>
                && KeyOf(url) in queues && KeyOf(url) in workers
                && queues.Keys == old(queues.Keys) + {KeyOf(url)}
                && var before := if KeyOf(url) in old(queues) then old(queues[KeyOf(url)].items) else [];
                   && (r == Queued <==> !(backlog > 0 && |before| >= backlog))
                   && (r == Queued ==> queues[KeyOf(url)].items == before + [Job(Request(url, verb))])
                   && (r.Discarded? ==> queues[KeyOf(url)].items == before && r.warned == !debugMode)
      ensures r.NotQueued? ==> queues == old(queues) && workers == old(workers)
      ensures !r.NotQueued? ==>
                && queues == old(queues)[KeyOf(url) := queues[KeyOf(url)]]
                && workers == old(workers)[KeyOf(url) := workers[KeyOf(url)]]
      ensures KeyOf(url) in old(queues) && !r.NotQueued? ==>
                queues[KeyOf(url)] == old(queues[KeyOf(url)]) && workers[KeyOf(url)] == old(workers[KeyOf(url)])
      ensures KeyOf(url) !in old(queues) && !r.NotQueued? ==>
                var w := workers[KeyOf(url)];
                && fresh(queues[KeyOf(url)]) && fresh(w) && w.queue == queues[KeyOf(url)]
                && !w.stopping && !w.finished && !w.parked && w.sent == []
      ensures forall k :: k in old(queues) && k != KeyOf(url) ==>
                k in queues && queues[k] == old(queues[k]) && queues[k].items == old(queues[k].items)
    {
      var found := GetQueueAndWorker(url);
      match found
      case Refused(e) =>
        r := NotQueued(e);
      case Found(q, w) =>
        var ok := q.PutNowait(Job(Request(url, verb)));
        if ok {
          r := Queued;
        } else {
          r := Discarded(!debugMode);
        }
    }

    /** Sets `stopping` on every worker and touches nothing else. */
    method StopWorkers()
      modifies workers.Values
      ensures forall k :: k in workers ==> workers[k].stopping
      ensures forall k :: k in workers ==>
                workers[k].sent == old(workers[k].sent) && workers[k].finished == old(workers[k].finished) &&
                workers[k].parked == old(workers[k].parked)
    {
      var todo := workers.Keys;
      while todo != {}
        invariant todo <= workers.Keys
        invariant forall k :: k in workers && k !in todo ==> workers[k].stopping
        invariant forall k :: k in workers ==>
                    workers[k].sent == old(workers[k].sent) && workers[k].finished == old(workers[k].finished) &&
                    workers[k].parked == old(workers[k].parked)
        decreases todo
      {
        var k :| k in todo;
        workers[k].Stop();
        todo := todo - {k};
      }
    }

    /** Puts a wake-up entry on every queue that has room, without blocking;
        a full queue is left as it is. */
    method WakeQueues()
      requires Valid()
      modifies queues.Values
      ensures forall k :: k in queues ==>
                queues[k].items == if old(queues[k].Full()) then old(queues[k].items) else old(queues[k].items) + [Wake]
    {
      var todo := queues.Keys;
      while todo != {}
        invariant todo <= queues.Keys
        invariant forall k :: k in queues && k in todo ==> queues[k].items == old(queues[k].items)
        invariant forall k :: k in queues && k !in todo ==>
                    queues[k].items == if old(queues[k].Full()) then old(queues[k].items) else old(queues[k].items) + [Wake]
        decreases todo
      {
        var k :| k in todo;
        var _ := queues[k].PutNowait(Wake);
        todo := todo - {k};
      }
    }

    /** Ask every worker to stop and put a wake-up entry on every queue that
        has room. With `wait`, the result is false when some worker did not
        end within its join; `terminated` says which ones did, and a worker
        whose thread body has returned always has. */
    method StopThreads(wait: bool, terminated: HostKey -> bool) returns (ok: bool)
      requires Valid()
      requires forall k :: k in workers && workers[k].finished ==> terminated(k)
      modifies workers.Values, queues.Values
      ensures forall k :: k in workers ==> workers[k].stopping
      ensures forall k :: k in workers ==>
                workers[k].sent == old(workers[k].sent) && workers[k].finished == old(workers[k].finished) &&
                workers[k].parked == old(workers[k].parked)
      ensures forall k :: k in queues ==>
                queues[k].items == if old(queues[k].Full()) then old(queues[k].items) else old(queues[k].items) + [Wake]
      ensures ok == (!wait || forall k :: k in workers ==> terminated(k))
    {
      StopWorkers();
      // Wake up every worker parked on an empty queue.
      WakeQueues();
      ok := true;
      if wait {
        var todo := workers.Keys;
        while todo != {}
          invariant todo <= workers.Keys
          invariant forall k :: k in workers && k !in todo ==> terminated(k)
          decreases todo
        {
          var k :| k in todo;
          if !terminated(k) {
            // The source logs that the worker failed to terminate.
            return false;
          }
          todo := todo - {k};
        }
      }
    }
  }

  /** Shutdown of a worker parked on its emptied queue, with a backlog of
      one: the wake-up entry fills the queue, the resumed worker takes it
      and ends, and the queue has room for the next purge again. */
  method ShutdownReleasesParkedWorker(url: string, net: Network, terminated: HostKey -> bool)
    returns (first: AsyncResult, stopped: bool, second: AsyncResult)
    ensures first == Queued && stopped && second == Queued
  {
    var purger := new DefaultPurger(1, DefaultErrorHeaders);
    first := purger.PurgeAsync(url, DefaultVerb, false);
    var key := KeyOf(url);
    var worker := purger.workers[key];
    var q := purger.queues[key];
    worker.Run(net);
    assert worker.parked && q.items == [];
    stopped := purger.StopThreads(false, terminated);
    assert q.items == [Wake];
    worker.Run(net);
    assert worker.finished && q.items == [];
    second := purger.PurgeAsync(url, DefaultVerb, false);
  }
}
