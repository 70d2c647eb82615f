/** The Redis queue: a list pushed at the head and popped at the tail, read by a retry loop. */
module RedisQueues {
  import opened RedisList
  import opened RedisLog

  /** Delays in nanoseconds. */
  const INITIAL_RETRY_DELAY := 100_000_000
  const MAX_RETRY_DELAY := 30_000_000_000

  /** How the server answers a blocking pop; Served means it had a connection and looked at the list. */
  datatype Reply = Served | EmptyReply | BadShape | ConnectionError | OtherError

  /**
   * One pass of the retry loop as the outside decides it: what other clients, consumers among them,
   * do before it, cancellation at its three checks, the health check, and the reply to the pop.
   */
  datatype Attempt = Attempt(
    cancelled: bool,
    pingOk: bool,
    others: seq<Op>,
    reply: Reply,
    cancelledOnError: bool,
    cancelledInWait: bool)

  datatype Got = Message(body: Body) | Cancelled | Failed | StillWaiting

  /** Half as much again, rounded down, up to the maximum. */
  function NextDelay(delay: int): (next: int)
    ensures 3 * delay >= 2 * MAX_RETRY_DELAY ==> next == MAX_RETRY_DELAY
    ensures 3 * delay < 2 * MAX_RETRY_DELAY ==> 2 * next <= 3 * delay < 2 * next + 2
  {
    var longer := delay * 3 / 2;
    if longer > MAX_RETRY_DELAY then MAX_RETRY_DELAY else longer
  }

  /** The state of the retry loop: how long it has slept so far, how long it will sleep next, and whether it is retrying. */
  datatype Retry = Retry(waits: seq<int>, delay: int, retrying: bool)

  const FRESH := Retry([], INITIAL_RETRY_DELAY, false)

  /** A pass that goes on: it sleeps after a connection error only, and a good health check or an answer starts afresh. */
  function RetryAfter(s: Retry, a: Attempt): Retry {
    var checked := if s.retrying && a.pingOk then s.(delay := INITIAL_RETRY_DELAY, retrying := false) else s;
    match a.reply
    case ConnectionError => Retry(checked.waits + [checked.delay], NextDelay(checked.delay), true)
    case EmptyReply => Retry(checked.waits, INITIAL_RETRY_DELAY, false)
    case _ => checked
  }

  function RetryOver(attempts: seq<Attempt>): Retry {
    if attempts == [] then FRESH else RetryAfter(RetryOver(attempts[..|attempts| - 1]), attempts[|attempts| - 1])
  }

  lemma RetryStep(attempts: seq<Attempt>, i: nat)
    requires i < |attempts|
    ensures RetryOver(attempts[..i + 1]) == RetryAfter(RetryOver(attempts[..i]), attempts[i])
  {
    assert attempts[..i + 1][..i] == attempts[..i];
  }

  /** The passes that end in a connection error, which are those followed by a sleep if the loop goes on. */
  function ErrorPasses(attempts: seq<Attempt>): seq<nat> {
    if attempts == [] then []
    else
      var n := |attempts| - 1;
      ErrorPasses(attempts[..n]) + if attempts[n].reply.ConnectionError? then [n as nat] else []
  }

  lemma {:induction false} ErrorPassesAre(attempts: seq<Attempt>)
    ensures var ps := ErrorPasses(attempts);
            && (forall i | 0 <= i < |ps| :: ps[i] < |attempts|)
            && (forall i, j | 0 <= i < j < |ps| :: ps[i] < ps[j])
            && (forall n | 0 <= n < |attempts| :: n in ps <==> attempts[n].reply.ConnectionError?)
  {
    if attempts != [] {
      var n := |attempts| - 1;
      ErrorPassesAre(attempts[..n]);
      assert forall m | 0 <= m < n :: attempts[..n][m] == attempts[m];
    }
  }

  /** A pass whose health check, if there is one, is good, or that is answered with nothing in it. */
  predicate Resets(a: Attempt) {
    a.pingOk || a.reply.EmptyReply?
  }

  /** No pass after the from-th, up to the to-th, starts the delays afresh. */
  predicate KeepsGrowing(attempts: seq<Attempt>, from: nat, to: int)
    requires to < |attempts|
  {
    forall j | from < j <= to :: !Resets(attempts[j])
  }

  /** Sleep i of a loop with error passes ps is as it should be. */
  ghost predicate RightSleep(attempts: seq<Attempt>, ps: seq<nat>, waits: seq<int>, i: nat)
    requires i < |waits| <= |ps| && ps[i] < |attempts|
  {
    waits[i] == if i > 0 && KeepsGrowing(attempts, ps[i - 1], ps[i]) then NextDelay(waits[i - 1]) else INITIAL_RETRY_DELAY
  }

  /**
   * The sleeps of a loop that went on through some passes: one after each connection error, the first
   * one initial, and each other one half as much again as the one before, or initial again if a good
   * health check or an empty answer came in between.
   */
  ghost predicate Slept(attempts: seq<Attempt>, waits: seq<int>) {
    var ps := ErrorPasses(attempts);
    && |waits| == |ps|
    && (forall i | 0 <= i < |ps| :: ps[i] < |attempts|)
    && forall i | 0 <= i < |waits| :: RightSleep(attempts, ps, waits, i)
  }

  /** The loop's state says what the next sleep would be. */
  ghost predicate NextSleep(attempts: seq<Attempt>, s: Retry) {
    var ps := ErrorPasses(attempts);
    && |s.waits| == |ps|
    && (forall i | 0 <= i < |ps| :: ps[i] < |attempts|)
    && (s.retrying <==> ps != [] && KeepsGrowing(attempts, ps[|ps| - 1], |attempts| - 1))
    && s.delay == if s.retrying then NextDelay(s.waits[|ps| - 1]) else INITIAL_RETRY_DELAY
  }

  lemma ErrorPassesStep(attempts: seq<Attempt>, a: Attempt)
    ensures ErrorPasses(attempts + [a]) == ErrorPasses(attempts) + if a.reply.ConnectionError? then [|attempts| as nat] else []
  {
    assert (attempts + [a])[..|attempts|] == attempts;
  }

  lemma GrowingBefore(attempts: seq<Attempt>, a: Attempt, from: nat, to: int)
    requires to < |attempts|
    ensures KeepsGrowing(attempts + [a], from, to) <==> KeepsGrowing(attempts, from, to)
  {
    assert forall j | 0 <= j < |attempts| :: (attempts + [a])[j] == attempts[j];
  }

  lemma GrowingOn(attempts: seq<Attempt>, a: Attempt, from: nat)
    requires from <= |attempts|
    ensures KeepsGrowing(attempts + [a], from, |attempts|) <==>
              from == |attempts| || (KeepsGrowing(attempts, from, |attempts| - 1) && !Resets(a))
  {
    assert (attempts + [a])[|attempts|] == a;
    assert forall j | 0 <= j < |attempts| :: (attempts + [a])[j] == attempts[j];
  }

  lemma NextSleepStep(attempts: seq<Attempt>, a: Attempt, s: Retry)
    requires NextSleep(attempts, s)
    ensures NextSleep(attempts + [a], RetryAfter(s, a))
  {
    hide NextDelay, ErrorPasses, KeepsGrowing;
    var ps := ErrorPasses(attempts);
    ErrorPassesStep(attempts, a);
    if a.reply.ConnectionError? {
      GrowingOn(attempts, a, |attempts|);
    } else if ps != [] {
      GrowingOn(attempts, a, ps[|ps| - 1]);
    }
  }

  /** The sleep after one more connection error. */
  lemma LastSleepIsRight(attempts: seq<Attempt>, a: Attempt, s: Retry)
    requires NextSleep(attempts, s) && a.reply.ConnectionError?
    ensures var more, waits := ErrorPasses(attempts + [a]), RetryAfter(s, a).waits;
            && |more| == |waits| == |s.waits| + 1 && more[|s.waits|] == |attempts|
            && RightSleep(attempts + [a], more, waits, |s.waits|)
  {
    hide NextDelay, ErrorPasses, KeepsGrowing;
    var ps := ErrorPasses(attempts);
    ErrorPassesStep(attempts, a);
    if ps != [] {
      GrowingOn(attempts, a, ps[|ps| - 1]);
    }
  }

  lemma SleepStaysRight(attempts: seq<Attempt>, a: Attempt, ps: seq<nat>, waits: seq<int>, more: seq<nat>, waits': seq<int>, i: nat)
    requires i < |waits| == |ps| && ps[i] < |attempts| && RightSleep(attempts, ps, waits, i)
    requires ps <= more && waits <= waits' && |waits'| <= |more|
    ensures RightSleep(attempts + [a], more, waits', i)
  {
    hide NextDelay, KeepsGrowing;
    assert more[i] == ps[i] && waits'[i] == waits[i];
    if i > 0 {
      assert more[i - 1] == ps[i - 1] && waits'[i - 1] == waits[i - 1];
      GrowingBefore(attempts, a, ps[i - 1], ps[i]);
    }
  }

  lemma SleptStep(attempts: seq<Attempt>, a: Attempt, s: Retry)
    requires Slept(attempts, s.waits) && NextSleep(attempts, s)
    ensures Slept(attempts + [a], RetryAfter(s, a).waits)
  {
    hide NextDelay, ErrorPasses, KeepsGrowing, RightSleep;
    var ps, s', more := ErrorPasses(attempts), RetryAfter(s, a), ErrorPasses(attempts + [a]);
    ErrorPassesStep(attempts, a);
    forall i | 0 <= i < |s'.waits| ensures RightSleep(attempts + [a], more, s'.waits, i) {
      if i < |ps| {
        SleepStaysRight(attempts, a, ps, s.waits, more, s'.waits, i);
      } else {
        LastSleepIsRight(attempts, a, s);
      }
    }
  }

  /** A loop that goes on through any passes sleeps as it should. */
  lemma {:induction false} SleepsAreRight(attempts: seq<Attempt>)
    ensures Slept(attempts, RetryOver(attempts).waits) && NextSleep(attempts, RetryOver(attempts))
  {
    if attempts != [] {
      var n := |attempts| - 1;
      SleepsAreRight(attempts[..n]);
      hide Slept, NextSleep, RetryAfter;
      SleptStep(attempts[..n], attempts[n], RetryOver(attempts[..n]));
      NextSleepStep(attempts[..n], attempts[n], RetryOver(attempts[..n]));
      assert attempts[..n] + [attempts[n]] == attempts;
    }
  }

  /** Every sleep is between the initial and the maximal delay, and there is one for each connection error. */
  lemma SleepsBounded(attempts: seq<Attempt>, waits: seq<int>)
    requires Slept(attempts, waits)
    ensures |waits| == |ErrorPasses(attempts)|
    ensures forall i | 0 <= i < |waits| :: INITIAL_RETRY_DELAY <= waits[i] <= MAX_RETRY_DELAY
  {
    for i := 0 to |waits|
      invariant forall j | 0 <= j < i :: INITIAL_RETRY_DELAY <= waits[j] <= MAX_RETRY_DELAY
    {
      assert RightSleep(attempts, ErrorPasses(attempts), waits, i);
    }
  }

  /** Everything other clients did before some passes, in order. */
  function Others(passes: seq<Attempt>): seq<Op> {
    if passes == [] then [] else Others(passes[..|passes| - 1]) + passes[|passes| - 1].others
  }

  /** The queue as the last of some passes finds it, the ones before having taken nothing. */
  function Seen(r: Redis, passes: seq<Attempt>): Redis {
    Run(r, Others(passes))
  }

  lemma SeenStep(r: Redis, attempts: seq<Attempt>, i: nat)
    requires i < |attempts|
    ensures Seen(r, attempts[..i + 1]) == Run(Seen(r, attempts[..i]), attempts[i].others)
  {
    assert attempts[..i + 1][..i] == attempts[..i];
    RunConcat(r, Others(attempts[..i]), attempts[i].others);
  }

  // ---------- calls of the queue ----------

  datatype Call = QueueCall(body: Body) | GetCall(passes: seq<Attempt>, got: Got) | RequeueCall(body: Body) | RemoveCall(body: Body)

  /**
   * What a pass over a list makes of it. It is cancelled at the start, after an error or a time-out of
   * the pop, or in the sleep after a connection error; it fails on any other error and on a bad
   * answer; it gives the oldest message if it is served one; and otherwise another pass follows.
   */
  ghost predicate Answers(a: Attempt, list: seq<Body>, got: Got) {
    && (got.Cancelled? <==>
          || a.cancelled
          || (a.reply.ConnectionError? && (a.cancelledOnError || a.cancelledInWait))
          || (a.reply.OtherError? && a.cancelledOnError)
          || (a.reply.Served? && list == [] && a.cancelledOnError))
    && (got.Message? <==> !a.cancelled && a.reply.Served? && list != [])
    && (got.Message? ==> got.body == list[|list| - 1])
    && (got.Failed? <==> !a.cancelled && (a.reply.BadShape? || (a.reply.OtherError? && !a.cancelledOnError)))
  }

  /** Some passes and the outcome of a Get over them: all but the last go on, and the last has that outcome. */
  ghost predicate Reads(r: Redis, passes: seq<Attempt>, got: Got) {
    && (forall i | 0 <= i < |passes| - 1 :: Answers(passes[i], Seen(r, passes[..i + 1]).list, StillWaiting))
    && if passes == [] then got.StillWaiting? else Answers(passes[|passes| - 1], Seen(r, passes).list, got)
  }

  ghost predicate Happens(r: Redis, call: Call) {
    call.GetCall? ==> Reads(r, call.passes, call.got)
  }

  /** What becomes of the list during a call, by whomever: a Get that gives a message takes one, at its end. */
  function OpsOf(call: Call): seq<Op> {
    match call
    case QueueCall(b) => [Add(b)]
    case GetCall(passes, got) => Others(passes) + if got.Message? then [Take] else []
    case RequeueCall(b) => [Put(b)]
    case RemoveCall(b) => [Drop(b)]
  }

  function AfterCall(r: Redis, call: Call): Redis {
    Run(r, OpsOf(call))
  }

  function AfterCalls(r: Redis, calls: seq<Call>): Redis {
    if calls == [] then r else AfterCall(AfterCalls(r, calls[..|calls| - 1]), calls[|calls| - 1])
  }

  ghost predicate Calls(r: Redis, calls: seq<Call>) {
    calls == [] || (Calls(r, calls[..|calls| - 1]) && Happens(AfterCalls(r, calls[..|calls| - 1]), calls[|calls| - 1]))
  }

  /** The bodies that the Gets among some calls returned. */
  function Replies(calls: seq<Call>): seq<Body> {
    if calls == [] then []
    else
      var last := calls[|calls| - 1];
      Replies(calls[..|calls| - 1]) + if last.GetCall? && last.got.Message? then [last.got.body] else []
  }

  /** No other consumer takes messages meanwhile. */
  predicate SoleConsumer(calls: seq<Call>) {
    forall i, j, k | 0 <= i < |calls| && calls[i].GetCall? && 0 <= j < |calls[i].passes| && 0 <= k < |calls[i].passes[j].others| ::
      !calls[i].passes[j].others[k].Take?
  }

  lemma OneOpCall(r: Redis, call: Call)
    requires !call.GetCall?
    ensures |OpsOf(call)| == 1 && AfterCall(r, call) == Step(r, OpsOf(call)[0])
  {
    hide Step;
    var ops := OpsOf(call);
    assert ops == [ops[0]] && ops[..0] == [] && Run(r, []) == r;
  }

  lemma TakeLast(r: Redis, passes: seq<Attempt>, got: Got)
    requires got.Message?
    ensures AfterCall(r, GetCall(passes, got)) == Step(Seen(r, passes), Take)
  {
    RunStep(r, Others(passes), Take);
  }

  /**
   * Whatever others do meanwhile, a Get that returns a body returns the one that came first, counting
   * what others bring meanwhile, among those not delivered before, and no other Get returns it again.
   */
  lemma GetDeliversOldest(r: Redis, passes: seq<Attempt>, got: Got)
    requires Fifo(r) && Reads(r, passes, got) && got.Message?
    ensures var s, t, all := Seen(r, passes), AfterCall(r, GetCall(passes, got)), r.arrived + Come(Others(passes));
            && s.arrived == t.arrived == all
            && |s.delivered| < |all| && got.body == all[|s.delivered|]
            && t.delivered == s.delivered + [got.body]
  {
    RunKeepsFifo(r, Others(passes));
    ArrivedIsCome(r, Others(passes));
    TakeLast(r, passes, got);
    LastIsOldest(Seen(r, passes).list);
  }

  lemma {:induction false} NoTakes(r: Redis, ops: seq<Op>)
    requires forall k | 0 <= k < |ops| :: !ops[k].Take?
    ensures Run(r, ops).delivered == r.delivered
  {
    if ops != [] {
      NoTakes(r, ops[..|ops| - 1]);
    }
  }

  lemma {:induction false} OthersTakeNothing(passes: seq<Attempt>)
    requires forall j, k | 0 <= j < |passes| && 0 <= k < |passes[j].others| :: !passes[j].others[k].Take?
    ensures forall k | 0 <= k < |Others(passes)| :: !Others(passes)[k].Take?
  {
    if passes != [] {
      OthersTakeNothing(passes[..|passes| - 1]);
    }
  }

  lemma SoleCallDelivers(r: Redis, call: Call)
    requires Fifo(r) && Happens(r, call) && SoleConsumer([call])
    ensures AfterCall(r, call).delivered == r.delivered + if call.GetCall? && call.got.Message? then [call.got.body] else []
  {
    if call.GetCall? {
      assert [call][0] == call;
      OthersTakeNothing(call.passes);
      NoTakes(r, Others(call.passes));
      if call.got.Message? {
        GetDeliversOldest(r, call.passes, call.got);
      } else {
        assert Others(call.passes) + [] == Others(call.passes);
      }
    } else {
      NoTakes(r, OpsOf(call));
    }
  }

  /** The bodies that some calls bring to the queue, with those that others bring during the Gets. */
  function Incoming(calls: seq<Call>): seq<Body> {
    if calls == [] then []
    else
      var before := Incoming(calls[..|calls| - 1]);
      match calls[|calls| - 1]
      case QueueCall(b) => before + [b]
      case GetCall(passes, _) => before + Come(Others(passes))
      case RequeueCall(b) => before + [b]
      case RemoveCall(_) => before
  }

  lemma ComeOfOne(op: Op)
    ensures Come([op]) == if op.Add? || op.Put? then [op.body] else []
  {
    assert [op][..0] == [] && Come([op][..0]) == [];
  }

  lemma ComeOfCall(calls: seq<Call>)
    requires calls != []
    ensures Incoming(calls) == Incoming(calls[..|calls| - 1]) + Come(OpsOf(calls[|calls| - 1]))
  {
    hide Come, Others;
    var call, before := calls[|calls| - 1], Incoming(calls[..|calls| - 1]);
    match call
    case GetCall(passes, got) =>
      ComeOfOne(Take);
      ComeConcat(Others(passes), [Take]);
      assert Come(Others(passes)) + [] == Come(Others(passes)) && Others(passes) + [] == Others(passes);
    case QueueCall(b) => ComeOfOne(Add(b));
    case RequeueCall(b) => ComeOfOne(Put(b));
    case RemoveCall(b) =>
      ComeOfOne(Drop(b));
      assert before + [] == before;
  }

  lemma SoleParts(calls: seq<Call>)
    requires calls != [] && SoleConsumer(calls)
    ensures SoleConsumer(calls[..|calls| - 1]) && SoleConsumer([calls[|calls| - 1]])
  {}

  lemma CallArrives(r: Redis, call: Call)
    ensures AfterCall(r, call).arrived == r.arrived + Come(OpsOf(call))
  {
    ArrivedIsCome(r, OpsOf(call));
  }

  lemma CallKeepsFifo(r: Redis, call: Call)
    requires Fifo(r)
    ensures Fifo(AfterCall(r, call))
  {
    RunKeepsFifo(r, OpsOf(call));
  }

  lemma Associates(a: seq<Body>, b: seq<Body>, c: seq<Body>)
    ensures a + (b + c) == a + b + c
  {}

  lemma AfterLast(r: Redis, calls: seq<Call>)
    requires calls != []
    ensures AfterCalls(r, calls) == AfterCall(AfterCalls(r, calls[..|calls| - 1]), calls[|calls| - 1])
  {}

  lemma {:induction false} ArrivalsAreIncoming(r: Redis, calls: seq<Call>)
    ensures AfterCalls(r, calls).arrived == r.arrived + Incoming(calls)
  {
    if calls == [] {
      assert r.arrived + [] == r.arrived;
    } else {
      hide *;
      var front, last := calls[..|calls| - 1], calls[|calls| - 1];
      ArrivalsAreIncoming(r, front);
      AfterLast(r, calls);
      ComeOfCall(calls);
      CallArrives(AfterCalls(r, front), last);
      Associates(r.arrived, Incoming(front), Come(OpsOf(last)));
    }
  }

  lemma {:induction false} CallsKeepFifo(r: Redis, calls: seq<Call>)
    requires Fifo(r)
    ensures Fifo(AfterCalls(r, calls))
  {
    if calls != [] {
      hide OpsOf, AfterCall, Fifo;
      CallsKeepFifo(r, calls[..|calls| - 1]);
      CallKeepsFifo(AfterCalls(r, calls[..|calls| - 1]), calls[|calls| - 1]);
    }
  }

  lemma {:induction false} RepliesAreDelivered(list: seq<Body>, calls: seq<Call>)
    requires Calls(Found(list), calls) && SoleConsumer(calls)
    ensures Fifo(AfterCalls(Found(list), calls)) && AfterCalls(Found(list), calls).delivered == Replies(calls)
  {
    if calls == [] {
      assert [] + Reverse(list) == Reverse(list);
    } else {
      hide OpsOf, Reverse, AfterCall, Happens, SoleConsumer;
      var n := |calls| - 1;
      SoleParts(calls);
      RepliesAreDelivered(list, calls[..n]);
      CallKeepsFifo(AfterCalls(Found(list), calls[..n]), calls[n]);
      SoleCallDelivers(AfterCalls(Found(list), calls[..n]), calls[n]);
    }
  }

  /**
   * Over every sequence of calls on a queue found on the server, with any activity of others in
   * between: what was listed at first, oldest first, and then what the calls brought, a requeued
   * body coming again, last, is what was delivered and then what is listed. For the only consumer,
   * what was delivered is what the Gets returned, in order.
   */
  lemma CallsAreFifo(list: seq<Body>, calls: seq<Call>)
    requires Calls(Found(list), calls)
    ensures var t := AfterCalls(Found(list), calls);
            && Reverse(list) + Incoming(calls) == t.delivered + Reverse(t.list)
            && (SoleConsumer(calls) ==>
                  t.delivered == Replies(calls) && Reverse(list) + Incoming(calls) == Replies(calls) + Reverse(t.list))
  {
    hide Incoming, Replies, Calls, AfterCalls, Reverse, SoleConsumer;
    assert [] + Reverse(list) == Reverse(list);
    ArrivalsAreIncoming(Found(list), calls);
    CallsKeepFifo(Found(list), calls);
    if SoleConsumer(calls) {
      RepliesAreDelivered(list, calls);
    }
  }

  // ---------- a Get, pass by pass ----------

  lemma GetIsCall(r: Redis, passes: seq<Attempt>, got: Got)
    ensures AfterCall(r, GetCall(passes, got)) == if got.Message? then Step(Seen(r, passes), Take) else Seen(r, passes)
  {
    RunStep(r, Others(passes), Take);
    assert Others(passes) + [] == Others(passes);
  }

  /** The loop has gone on through used passes, with the queue at now and the retry state s. */
  ghost predicate Waited(r: Redis, now: Redis, attempts: seq<Attempt>, used: nat, s: Retry) {
    && used <= |attempts| && now == Seen(r, attempts[..used]) && s == RetryOver(attempts[..used])
    && Reads(r, attempts[..used], StillWaiting)
  }

  lemma WaitedNothing(r: Redis, attempts: seq<Attempt>)
    ensures Waited(r, r, attempts, 0, FRESH) && Reads(r, attempts[..0], StillWaiting)
    ensures r == AfterCall(r, GetCall(attempts[..0], StillWaiting))
  {
    assert attempts[..0] == [] && Others([]) == [] && OpsOf(GetCall([], StillWaiting)) == [];
  }

  lemma ReadsStep(r: Redis, attempts: seq<Attempt>, used: nat, got: Got)
    requires used < |attempts| && Reads(r, attempts[..used], StillWaiting)
    requires Answers(attempts[used], Seen(r, attempts[..used + 1]).list, got)
    ensures Reads(r, attempts[..used + 1], got)
  {
    hide Seen, Answers;
    var before, passes := attempts[..used], attempts[..used + 1];
    forall i | 0 <= i < |passes| - 1 ensures Answers(passes[i], Seen(r, passes[..i + 1]).list, StillWaiting) {
      assert passes[..i + 1] == attempts[..i + 1] == before[..i + 1] && before[i] == passes[i];
      if i == used - 1 {
        assert before[..i + 1] == before;
      }
    }
    assert passes[..|passes|] == passes;
  }

  lemma WaitedStep(r: Redis, before: Redis, attempts: seq<Attempt>, used: nat, s: Retry, got: Got, after: Redis, s': Retry)
    requires used < |attempts| && Waited(r, before, attempts, used, s)
    requires Answers(attempts[used], Run(before, attempts[used].others).list, got)
    requires after == if got.Message? then Step(Run(before, attempts[used].others), Take) else Run(before, attempts[used].others)
    requires if got.StillWaiting? then s' == RetryAfter(s, attempts[used]) else s'.waits == s.waits
    ensures Reads(r, attempts[..used + 1], got) && after == AfterCall(r, GetCall(attempts[..used + 1], got))
    ensures got.StillWaiting? ==> Waited(r, after, attempts, used + 1, s')
    ensures !got.StillWaiting? ==> Slept(attempts[..used], s'.waits)
  {
    hide Seen, Run, Step, Answers, Reads, RetryAfter, RetryOver, AfterCall, Slept, NextSleep;
    SeenStep(r, attempts, used);
    RetryStep(attempts, used);
    SleepsAreRight(attempts[..used]);
    ReadsStep(r, attempts, used, got);
    GetIsCall(r, attempts[..used + 1], got);
  }

  lemma WaitedAll(r: Redis, now: Redis, attempts: seq<Attempt>, used: nat, s: Retry)
    requires used <= |attempts|
    ensures used == |attempts| && Waited(r, now, attempts, used, s) ==> Slept(attempts, s.waits)
  {
    hide Slept, NextSleep, RetryOver, Reads, Seen;
    SleepsAreRight(attempts);
    if used == |attempts| {
      assert attempts[..used] == attempts;
    }
  }

  // ---------- the queue object ----------

  class RedisQueue {
    var list: seq<Body>
    ghost var log: Redis

    ghost predicate Valid()
      reads this
    {
      log.list == list && Fifo(log)
    }

    constructor (list: seq<Body>)
      ensures Valid() && log == Found(list)
    {
      this.list, log := list, Found(list);
      new;
      assert [] + Reverse(list) == Reverse(list);
    }

    ghost method LogStep(op: Op)
      requires Fifo(log)
      modifies this`log
      ensures Fifo(log) && log == Step(old(log), op) == Run(old(log), [op])
    {
      StepKeepsFifo(log, op);
      RunStep(log, [], op);
      assert [] + [op] == [op];
      log := Step(log, op);
    }

    method Queue(body: Body)
      requires Valid()
      modifies this
      ensures Valid() && log == AfterCall(old(log), QueueCall(body)) && list == [body] + old(list)
    {
      LogStep(Add(body));
      list := LPush(list, body);
    }

    method Other(op: Op)
      requires Valid()
      modifies this
      ensures Valid() && log == Step(old(log), op)
    {
      LogStep(op);
      match op
      case Add(b) => list := LPush(list, b);
      case Put(b) => list := LPush(list, b);
      case Drop(_) =>
      case Take => list := if list == [] then [] else list[..|list| - 1];
    }

    /** What other clients do. */
    method Meanwhile(ops: seq<Op>)
      requires Valid()
      modifies this
      ensures Valid() && log == Run(old(log), ops)
    {
      hide Run, Fifo, Step, LPush;
      RunAll(log, ops);
      for i := 0 to |ops|
        invariant Valid() && log == Run(old(log), ops[..i])
      {
        RunPrefix(old(log), ops, i);
        Other(ops[i]);
      }
    }

    /** The server's side of a blocking pop that it answers: the last element, or nothing within the timeout. */
    method BrPop() returns (r: Got)
      requires Valid()
      modifies this
      ensures Valid() && log == if old(list) == [] then old(log) else Step(old(log), Take)
      ensures r == if old(list) == [] then StillWaiting else Message(old(list)[|old(list)| - 1])
    {
      LogStep(Take);
      if list == [] {
        return StillWaiting;
      }
      var n := |list| - 1;
      r := Message(list[n]);
      list := list[..n];
    }

    /** One pass of the loop; StillWaiting means another one follows. */
    method Pass(a: Attempt, s: Retry) returns (r: Got, s': Retry)
      requires Valid()
      modifies this
      ensures Valid() && Answers(a, Run(old(log), a.others).list, r)
      ensures log == if r.Message? then Step(Run(old(log), a.others), Take) else Run(old(log), a.others)
      ensures if r.StillWaiting? then s' == RetryAfter(s, a) else s'.waits == s.waits
      ensures a.reply.ConnectionError? && r.StillWaiting? ==>
                var slept := if s.retrying && a.pingOk then INITIAL_RETRY_DELAY else s.delay;
                s'.waits == s.waits + [slept] && s'.delay == NextDelay(slept) && s'.retrying
      ensures r.Cancelled? <==>
                || a.cancelled
                || (a.reply.ConnectionError? && (a.cancelledOnError || a.cancelledInWait))
                || (a.reply.OtherError? && a.cancelledOnError)
                || (a.reply.Served? && a.cancelledOnError && Run(old(log), a.others).list == [])
      ensures r.Failed? <==> !a.cancelled && (a.reply.BadShape? || (a.reply.OtherError? && !a.cancelledOnError))
    {
      hide AfterCall, Run, Fifo, Step;
      Meanwhile(a.others);
      var retryDelay, wasRetrying, waits := s.delay, s.retrying, s.waits;
      if a.cancelled {
        return Cancelled, s;
      }
      if wasRetrying && a.pingOk {
        wasRetrying := false;
        retryDelay := INITIAL_RETRY_DELAY;
      }
      match a.reply {
        case Served =>
          r := BrPop();
          if r.Message? {
            return r, Retry(waits, INITIAL_RETRY_DELAY, false);
          }
          // A timeout is an error too, but one to go on after.
          if a.cancelledOnError {
            return Cancelled, s;
          }
        case ConnectionError =>
          if a.cancelledOnError {
            return Cancelled, s;
          }
          wasRetrying := true;
          if a.cancelledInWait {
            return Cancelled, s;
          }
          waits := waits + [retryDelay];
          retryDelay := NextDelay(retryDelay);
        case OtherError =>
          return if a.cancelledOnError then Cancelled else Failed, s;
        case EmptyReply =>
          wasRetrying := false;
          retryDelay := INITIAL_RETRY_DELAY;
        case BadShape =>
          return Failed, s;
      }
      r, s' := StillWaiting, Retry(waits, retryDelay, wasRetrying);
    }

    /**
     * Waits for the oldest message, over errors, retries and whatever others do: the first pass that
     * must end the loop ends it, with the message if there is one to give.
     */
    method Get(attempts: seq<Attempt>) returns (r: Got, used: nat, s: Retry)
      requires Valid()
      modifies this
      ensures Valid() && used <= |attempts| && Reads(old(log), attempts[..used], r)
      ensures log == AfterCall(old(log), GetCall(attempts[..used], r))
      ensures if r.StillWaiting? then used == |attempts| && Slept(attempts, s.waits)
              else used > 0 && Slept(attempts[..used - 1], s.waits)
    {
      r, used, s := StillWaiting, 0, FRESH;
      WaitedNothing(log, attempts);
      hide Waited, RetryAfter, Seen, Run, Answers, AfterCall, Fifo, Step, Slept, Reads;
      while used < |attempts| && r.StillWaiting?
        invariant Valid() && used <= |attempts|
        invariant r.StillWaiting? ==> Waited(old(log), log, attempts, used, s)
        invariant Reads(old(log), attempts[..used], r) && log == AfterCall(old(log), GetCall(attempts[..used], r))
        invariant !r.StillWaiting? ==> used > 0 && Slept(attempts[..used - 1], s.waits)
      {
        ghost var before, retry := log, s;
        r, s := Pass(attempts[used], s);
        WaitedStep(old(log), before, attempts, used, retry, r, log, s);
        used := used + 1;
      }
      WaitedAll(old(log), log, attempts, used, s);
    }

    /** Nothing to do: the message left the list when it was popped. It is no longer held. */
    method Remove(body: Body)
      requires Valid()
      modifies this`log
      ensures Valid() && log == AfterCall(old(log), RemoveCall(body)) && list == old(list)
    {
      LogStep(Drop(body));
    }

    /** A requeued message goes behind all others. */
    method Requeue(body: Body)
      requires Valid()
      modifies this
      ensures Valid() && log == AfterCall(old(log), RequeueCall(body)) && list == [body] + old(list)
    {
      LogStep(Put(body));
      list := LPush(list, body);
    }
  }
}
