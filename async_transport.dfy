/**
 * AsynchronousTransport: commands from `send_and_ignore` are buffered and a
 * worker sends them in bulk when asked to flush, when more than 50 are
 * waiting, or when the oldest is more than one tick old; per-command
 * statuses in the bulk response decide which commands stay buffered.
 *
 * The worker thread is modelled as a sequential loop over the shared state;
 * time is integer ticks passed in by the caller.
 */
module AsyncTransport {
  import opened Wrappers
  import opened Values
  import opened Errors
  import SyncTransport

  const MaxBufferSize := 50
  const BufferTimeout := 1

  /** One buffered `send_and_ignore` call, `scheduled` at the tick it was made. */
  datatype Command = Command(name: string, data: Json, scheduled: int)

  /** What the worker does when it wakes up. */
  datatype Decision = SendNow | Exit | Wait(timeout: Option<int>)

  /**
   * One evaluation of the worker's loop condition. The oldest command is
   * overdue when `scheduled + BufferTimeout - now < 0`, that is when it is
   * strictly more than BufferTimeout ticks old. Otherwise the worker exits
   * if stopped, or waits until the oldest command falls due (forever when
   * the buffer is empty).
   */
  function Decide(buffer: seq<Command>, flush: bool, stop: bool, now: int): (d: Decision)
    ensures d == SendNow <==>
              (buffer != [] && flush) || |buffer| > MaxBufferSize ||
              (buffer != [] && now - buffer[0].scheduled > BufferTimeout)
    ensures d == Exit <==> d != SendNow && stop
    ensures d.Wait? ==> (d.timeout.None? <==> buffer == [])
    ensures d.Wait? && buffer != [] ==>
              d.timeout == Some(buffer[0].scheduled + BufferTimeout - now) && d.timeout.value >= 0
  {
    var size := |buffer|;
    var timeoutIn := if size > 0 then Some(buffer[0].scheduled + BufferTimeout - now) else None;
    var timeouted := timeoutIn.Some? && timeoutIn.value < 0;
    if (size > 0 && flush) || size > MaxBufferSize || timeouted then SendNow
    else if stop then Exit
    else Wait(timeoutIn)
  }

  /**
   * Once stopped (with the invariant that stop leaves a flush pending until
   * the buffer drains), the worker sends while anything is buffered and
   * exits only on an empty buffer.
   */
  lemma StoppedWorkerDrains(buffer: seq<Command>, flush: bool, now: int)
    requires flush || buffer == []
    ensures buffer != [] ==> Decide(buffer, flush, true, now) == SendNow
    ensures Decide(buffer, flush, true, now) == Exit <==> buffer == []
  {
  }

  /**
   * The overdue test is strict: a lone command exactly BufferTimeout ticks
   * old waits (for zero ticks); one tick later it is sent.
   */
  lemma TimeoutIsStrict(c: Command, stop: bool)
    ensures Decide([c], false, stop, c.scheduled + BufferTimeout) == (if stop then Exit else Wait(Some(0)))
    ensures Decide([c], false, stop, c.scheduled + BufferTimeout + 1) == SendNow
  {
  }

  /**
   * `flush()` on an empty buffer leaves the flag set, so the next command
   * enqueued is sent at once, whatever its age.
   */
  lemma PendingFlushSendsNextCommand(c: Command, stop: bool, now: int)
    ensures Decide([], true, stop, now) != SendNow
    ensures Decide([c], true, stop, now) == SendNow
  {
  }

  /** The commands one bulk request carries: the oldest ones, at most MaxBufferSize. */
  function Batch(buffer: seq<Command>): (batch: seq<Command>)
    ensures |batch| == if |buffer| <= MaxBufferSize then |buffer| else MaxBufferSize
    ensures forall i :: 0 <= i < |batch| ==> batch[i] == buffer[i]
  {
    if |buffer| <= MaxBufferSize then buffer else buffer[..MaxBufferSize]
  }

  /** The command as the bulk request carries it: `{'name', 'data', 'scheduled'}`. */
  function CommandJson(c: Command): (j: Json)
    ensures j.JObj? && j.fields.Keys == {"name", "data", "scheduled"}
    ensures j.fields["name"] == JStr(c.name) && j.fields["data"] == c.data && j.fields["scheduled"] == JInt(c.scheduled)
  {
    JObj(map["name" := JStr(c.name), "data" := c.data, "scheduled" := JInt(c.scheduled)])
  }

  function CommandsJson(cs: seq<Command>): (js: seq<Json>)
    ensures |js| == |cs|
    ensures forall i :: 0 <= i < |cs| ==> js[i] == CommandJson(cs[i])
  {
    if cs == [] then [] else [CommandJson(cs[0])] + CommandsJson(cs[1..])
  }

  /** The body of the bulk request: `{'commands': batch}`. */
  function BulkMessage(batch: seq<Command>): (m: Json)
    ensures m.JObj? && m.fields.Keys == {"commands"} && m.fields["commands"] == JArr(CommandsJson(batch))
  {
    JObj(map["commands" := JArr(CommandsJson(batch))])
  }

  /** How the reconciliation treats the command at one position of the buffer. */
  datatype Verdict = Delivered | Retry | Failed(failure: CommandFailure)

  /**
   * The status of position `i`: the `status` of result `i` ("missing" when
   * it has none), and "retry" for positions the response does not reach.
   */
  function StatusAt(results: seq<map<string, Json>>, i: nat): (status: Json)
    ensures i >= |results| ==> status == JStr("retry")
    ensures i < |results| && "status" in results[i] ==> status == results[i]["status"]
    ensures i < |results| && "status" !in results[i] ==> status == JStr("missing")
  {
    if i < |results| then Get(results[i], "status", JStr("missing")) else JStr("retry")
  }

  function VerdictAt(results: seq<map<string, Json>>, i: nat): (v: Verdict)
    ensures i >= |results| ==> v == Retry
    ensures v == Delivered <==> StatusAt(results, i) == JStr("ok")
    ensures v == Retry <==> StatusAt(results, i) == JStr("retry")
    ensures v.Failed? ==> v.failure.status == StatusAt(results, i)
    ensures v.Failed? ==> i < |results| && v.failure.errors == Get(results[i], "errors", JArr([]))
  {
    var status := StatusAt(results, i);
    if status == JStr("ok") then Delivered
    else if status == JStr("retry") then Retry
    else Failed(CommandFailure(status, Get(results[i], "errors", JArr([]))))
  }

  /** The commands of `snapshot` whose verdict is Retry, in buffer order (the loop's `leftovers`). */
  function Leftovers(snapshot: seq<Command>, results: seq<map<string, Json>>): (l: seq<Command>)
    ensures |l| <= |snapshot|
  {
    if snapshot == [] then []
    else
      var n := |snapshot| - 1;
      Leftovers(snapshot[..n], results) + (if VerdictAt(results, n) == Retry then [snapshot[n]] else [])
  }

  /** The commands of `snapshot` that leave the buffer: delivered or failed. */
  function Settled(snapshot: seq<Command>, results: seq<map<string, Json>>): (s: seq<Command>)
    ensures |s| + |Leftovers(snapshot, results)| == |snapshot|
  {
    if snapshot == [] then []
    else
      var n := |snapshot| - 1;
      Settled(snapshot[..n], results) + (if VerdictAt(results, n) != Retry then [snapshot[n]] else [])
  }

  /** The failure reports of the first `n` positions, in order (the loop's `errors`). */
  function Failures(n: nat, results: seq<map<string, Json>>): (f: seq<CommandFailure>)
    ensures |f| <= n
  {
    if n == 0 then []
    else Failures(n - 1, results) + (match VerdictAt(results, n - 1) case Failed(e) => [e] case _ => [])
  }

  /** The positions below `n` whose verdict satisfies `keep`, in increasing order. */
  function Positions(n: nat, results: seq<map<string, Json>>, keep: Verdict -> bool): (p: seq<nat>)
    ensures forall k :: 0 <= k < |p| ==> p[k] < n
    ensures forall k, l :: 0 <= k < l < |p| ==> p[k] < p[l]
    ensures forall i :: 0 <= i < n ==> (i in p <==> keep(VerdictAt(results, i)))
  {
    if n == 0 then []
    else Positions(n - 1, results, keep) + (if keep(VerdictAt(results, n - 1)) then [n - 1] else [])
  }

  predicate IsRetry(v: Verdict) { v == Retry }
  predicate IsFailure(v: Verdict) { v.Failed? }

  /**
   * The leftovers are exactly the commands at the retried positions, in
   * their original relative order.
   */
  lemma {:induction false} LeftoversAreRetried(snapshot: seq<Command>, results: seq<map<string, Json>>)
    ensures var p := Positions(|snapshot|, results, IsRetry);
            |Leftovers(snapshot, results)| == |p| &&
            forall k :: 0 <= k < |p| ==> Leftovers(snapshot, results)[k] == snapshot[p[k]]
  {
    if snapshot != [] {
      var n := |snapshot| - 1;
      var init := snapshot[..n];
      LeftoversAreRetried(init, results);
      var p, q := Positions(n, results, IsRetry), Positions(n + 1, results, IsRetry);
      var l, m := Leftovers(init, results), Leftovers(snapshot, results);
      LastLeftover(snapshot, results);
      PositionsLast(n + 1, results, IsRetry);
      forall k | 0 <= k < |q|
        ensures m[k] == snapshot[q[k]]
      {
        if k < |p| {
          assert m[k] == l[k] == init[p[k]];
        }
      }
    }
  }

  /** One failure report per failed position, in order, with that position's status and errors. */
  lemma {:induction false} FailuresAreFailed(n: nat, results: seq<map<string, Json>>)
    ensures var p := Positions(n, results, IsFailure);
            |Failures(n, results)| == |p| &&
            forall k :: 0 <= k < |p| ==> Failures(n, results)[k] == VerdictAt(results, p[k]).failure
  {
    if n > 0 {
      FailuresAreFailed(n - 1, results);
      var p, q := Positions(n - 1, results, IsFailure), Positions(n, results, IsFailure);
      var f, g := Failures(n - 1, results), Failures(n, results);
      PositionsLast(n, results, IsFailure);
      FailuresLast(n, results);
      var v := VerdictAt(results, n - 1);
      if v.Failed? {
        assert q == p + [n - 1] && g == f + [v.failure];
        forall k | 0 <= k < |q|
          ensures g[k] == VerdictAt(results, q[k]).failure
        {
          if k < |p| {
            assert g[k] == f[k] && q[k] == p[k];
          } else {
            assert g[k] == v.failure && q[k] == n - 1;
          }
        }
      } else {
        assert q == p && g == f;
      }
    }
  }

  /** Every command of the snapshot is either kept for a retry or settled, none twice. */
  lemma {:induction false} LeftoversAndSettledPartition(snapshot: seq<Command>, results: seq<map<string, Json>>)
    ensures multiset(Leftovers(snapshot, results)) + multiset(Settled(snapshot, results)) == multiset(snapshot)
  {
    if snapshot != [] {
      var n := |snapshot| - 1;
      var init, last := snapshot[..n], snapshot[n];
      LeftoversAndSettledPartition(init, results);
      LastLeftover(snapshot, results);
      LastSettled(snapshot, results);
      assert snapshot == init + [last];
      SplitStep(Leftovers(init, results), Settled(init, results), init, last, VerdictAt(results, n) == Retry);
    }
  }

  /** The last position of the snapshot joins the leftovers exactly when it is retried. */
  lemma LastLeftover(snapshot: seq<Command>, results: seq<map<string, Json>>)
    requires snapshot != []
    ensures var n := |snapshot| - 1;
            Leftovers(snapshot, results) ==
            Leftovers(snapshot[..n], results) + (if VerdictAt(results, n) == Retry then [snapshot[n]] else [])
  {
  }

  /** The last position of the snapshot joins the settled commands exactly when it is not retried. */
  lemma LastSettled(snapshot: seq<Command>, results: seq<map<string, Json>>)
    requires snapshot != []
    ensures var n := |snapshot| - 1;
            Settled(snapshot, results) ==
            Settled(snapshot[..n], results) + (if VerdictAt(results, n) == Retry then [] else [snapshot[n]])
  {
  }

  /** The positions below `n` are those below `n - 1`, and `n - 1` if it qualifies. */
  lemma PositionsLast(n: nat, results: seq<map<string, Json>>, keep: Verdict -> bool)
    requires n > 0
    ensures Positions(n, results, keep) ==
            Positions(n - 1, results, keep) + (if keep(VerdictAt(results, n - 1)) then [n - 1] else [])
  {
  }

  /** The failures of the first `n` positions: those of the first `n - 1`, and position `n - 1`'s if it failed. */
  lemma FailuresLast(n: nat, results: seq<map<string, Json>>)
    requires n > 0
    ensures Failures(n, results) == Failures(n - 1, results) + (if VerdictAt(results, n - 1).Failed? then [VerdictAt(results, n - 1).failure] else [])
  {
  }

  /** Sending the next element to one side of a split keeps the split. */
  lemma SplitStep<T>(kept: seq<T>, gone: seq<T>, s: seq<T>, x: T, keep: bool)
    requires multiset(kept) + multiset(gone) == multiset(s)
    ensures multiset(kept + (if keep then [x] else [])) + multiset(gone + (if keep then [] else [x])) == multiset(s + [x])
  {
  }

  /** From position `a` on all positions are retried: they are all kept, in order. */
  lemma {:induction false} RetriedSuffixKept(snapshot: seq<Command>, results: seq<map<string, Json>>, a: nat)
    requires a <= |snapshot|
    requires forall i :: a <= i < |snapshot| ==> VerdictAt(results, i) == Retry
    ensures Leftovers(snapshot, results) == Leftovers(snapshot[..a], results) + snapshot[a..]
  {
    if a < |snapshot| {
      var n := |snapshot| - 1;
      RetriedSuffixKept(snapshot[..n], results, a);
      assert snapshot[..n][..a] == snapshot[..a];
      assert snapshot[a..] == snapshot[..n][a..] + [snapshot[n]];
    } else {
      assert snapshot[..a] == snapshot;
    }
  }

  /** From position `a` on nothing is retried: nothing more is kept. */
  lemma {:induction false} SettledSuffixDropped(snapshot: seq<Command>, results: seq<map<string, Json>>, a: nat)
    requires a <= |snapshot|
    requires forall i :: a <= i < |snapshot| ==> VerdictAt(results, i) != Retry
    ensures Leftovers(snapshot, results) == Leftovers(snapshot[..a], results)
  {
    if a < |snapshot| {
      var n := |snapshot| - 1;
      SettledSuffixDropped(snapshot[..n], results, a);
      assert snapshot[..n][..a] == snapshot[..a];
    } else {
      assert snapshot[..a] == snapshot;
    }
  }

  /**
   * Positions the response does not reach (the unsent tail beyond
   * MaxBufferSize among them) are all kept for a retry, after the answered
   * positions' leftovers.
   */
  lemma UnansweredTailKept(snapshot: seq<Command>, results: seq<map<string, Json>>)
    requires |results| <= |snapshot|
    ensures Leftovers(snapshot, results) == Leftovers(snapshot[..|results|], results) + snapshot[|results|..]
  {
    RetriedSuffixKept(snapshot, results, |results|);
  }

  /** A result `{"status": s}` gives position `i` the verdict named by `s`. */
  lemma StatusOnly(results: seq<map<string, Json>>, i: nat, s: string)
    requires i < |results| && results[i] == map["status" := JStr(s)]
    ensures StatusAt(results, i) == JStr(s)
  {
  }

  /**
   * 80 buffered commands answered with 20 "ok" then 30 "retry": the bulk
   * request carries 50 and the 60 last commands stay buffered, of which
   * the next bulk request carries 50 again.
   */
  lemma EightyCommandsScenario(buffer: seq<Command>, results: seq<map<string, Json>>)
    requires |buffer| == 80
    requires |results| == 50
    requires forall i :: 0 <= i < 20 ==> results[i] == map["status" := JStr("ok")]
    requires forall i :: 20 <= i < 50 ==> results[i] == map["status" := JStr("retry")]
    ensures Batch(buffer) == buffer[..50]
    ensures Leftovers(buffer, results) == buffer[20..]
    ensures |Leftovers(buffer, results)| == 60 && Batch(Leftovers(buffer, results)) == buffer[20..70]
  {
    forall i | 20 <= i < 80
      ensures VerdictAt(results, i) == Retry
    {
      if i < 50 { StatusOnly(results, i, "retry"); }
    }
    RetriedSuffixKept(buffer, results, 20);
    forall i | 0 <= i < 20
      ensures VerdictAt(results, i) != Retry
    {
      StatusOnly(results, i, "ok");
    }
    SettledSuffixDropped(buffer[..20], results, 0);
    assert buffer[..20][..0] == [];
    assert Leftovers(buffer, results) == buffer[20..];
  }

  /** The buffer `data.buffer = leftovers` leaves: the snapshot's leftovers only. */
  function Reconciled(buffer: seq<Command>, indices: nat, results: seq<map<string, Json>>): (r: seq<Command>)
    requires indices <= |buffer|
    ensures |r| <= indices
  {
    Leftovers(buffer[..indices], results)
  }

  /** The evidently intended buffer: the leftovers, then what was appended during the send. */
  function ReconciledKeepingAppended(buffer: seq<Command>, indices: nat, results: seq<map<string, Json>>): (r: seq<Command>)
    requires indices <= |buffer|
    ensures |buffer| - indices <= |r| <= |buffer|
    ensures r[|r| - (|buffer| - indices)..] == buffer[indices..]
  {
    Leftovers(buffer[..indices], results) + buffer[indices..]
  }

  /**
   * As written, the commands appended while the bulk request was in flight
   * (`buffer[indices..]`) are neither kept nor settled: they are lost.
   */
  lemma AsWrittenLosesAppended(buffer: seq<Command>, indices: nat, results: seq<map<string, Json>>)
    requires indices <= |buffer|
    ensures multiset(Reconciled(buffer, indices, results)) + multiset(Settled(buffer[..indices], results))
            + multiset(buffer[indices..]) == multiset(buffer)
    ensures indices < |buffer| ==>
              |Reconciled(buffer, indices, results)| + |Settled(buffer[..indices], results)| < |buffer|
  {
    LeftoversAndSettledPartition(buffer[..indices], results);
    assert buffer == buffer[..indices] + buffer[indices..];
    assert |multiset(buffer)| == |buffer|;
    assert |multiset(buffer[indices..])| == |buffer| - indices;
  }

  /**
   * Corrected: no command is lost (each is kept or settled), and the
   * retried commands come before those appended during the send.
   */
  lemma NoCommandLost(buffer: seq<Command>, indices: nat, results: seq<map<string, Json>>)
    requires indices <= |buffer|
    ensures multiset(ReconciledKeepingAppended(buffer, indices, results)) + multiset(Settled(buffer[..indices], results))
            == multiset(buffer)
    ensures var kept := ReconciledKeepingAppended(buffer, indices, results);
            var retried := Leftovers(buffer[..indices], results);
            kept[..|retried|] == retried && kept[|retried|..] == buffer[indices..]
  {
    var snapshot, appended := buffer[..indices], buffer[indices..];
    LeftoversAndSettledPartition(snapshot, results);
    assert buffer == snapshot + appended;
    AppendParts(snapshot, appended);
    AppendParts(Leftovers(snapshot, results), appended);
  }

  /** A concatenation splits back into its parts, and its multiset is theirs combined. */
  lemma AppendParts<T>(a: seq<T>, b: seq<T>)
    ensures multiset(a + b) == multiset(a) + multiset(b)
    ensures (a + b)[..|a|] == a && (a + b)[|a|..] == b
  {
  }

  /** When nothing was appended during the send, the two reconciliations agree. */
  lemma ReconcileVariantsAgree(buffer: seq<Command>, results: seq<map<string, Json>>)
    ensures Reconciled(buffer, |buffer|, results) == ReconciledKeepingAppended(buffer, |buffer|, results)
  {
    assert buffer[|buffer|..] == [];
  }

  /** The reconciliation never invents a command. */
  lemma ReconciledFromBuffer(buffer: seq<Command>, indices: nat, results: seq<map<string, Json>>)
    requires indices <= |buffer|
    ensures multiset(Reconciled(buffer, indices, results)) <= multiset(buffer)
  {
    AsWrittenLosesAppended(buffer, indices, results);
  }

  /**
   * The reconciliation loop (`for i in indices`): sorts every position of
   * the buffer as it was at the snapshot into leftovers and failure reports.
   */
  method SortOutcomes(buffer: seq<Command>, indices: nat, results: seq<map<string, Json>>)
    returns (leftovers: seq<Command>, errors: seq<CommandFailure>)
    requires indices <= |buffer|
    ensures leftovers == Leftovers(buffer[..indices], results)
    ensures errors == Failures(indices, results)
  {
    leftovers, errors := [], [];
    for i := 0 to indices
      invariant leftovers == Leftovers(buffer[..i], results)
      invariant errors == Failures(i, results)
    {
      var command := buffer[i];
      var status := StatusAt(results, i);
      if status == JStr("ok") {
      } else if status == JStr("retry") {
        leftovers := leftovers + [command];
      } else {
        errors := errors + [CommandFailure(status, Get(results[i], "errors", JArr([])))];
      }
      assert buffer[..i + 1][..i] == buffer[..i];
    }
  }

  /**
   * `results` of a bulk envelope, as far as the reconciliation reads it:
   * the entries at the snapshot's positions below `len(results)`. None when
   * reading raises: no `results` key (KeyError), a value without `len`, an
   * entry read from a list that is not an object (no `.get`), or any entry
   * read from a non-empty object (a JSON object has no key 0) or string (a
   * character has no `.get`). An empty object or string has length 0, so
   * every position reads as "retry".
   */
  function BulkResults(envelope: map<string, Json>, indices: nat): (r: Option<seq<map<string, Json>>>)
    ensures r.None? <==> "results" !in envelope || Unreadable(envelope["results"], indices)
    ensures r.Some? && envelope["results"].JArr? ==> var items := envelope["results"].items;
              |r.value| == (if |items| <= indices then |items| else indices) &&
              forall i :: 0 <= i < |r.value| ==> items[i] == JObj(r.value[i])
    ensures r.Some? && !envelope["results"].JArr? ==> r.value == []
  {
    if "results" !in envelope then None
    else match envelope["results"]
      case JArr(items) =>
        var read := if |items| <= indices then items else items[..indices];
        if forall i :: 0 <= i < |read| ==> read[i].JObj? then Some(seq(|read|, i requires 0 <= i < |read| => read[i].fields))
        else None
      case JObj(fields) => if |fields| > 0 && indices > 0 then None else Some([])
      case JStr(text) => if |text| > 0 && indices > 0 then None else Some([])
      case _ => None
  }

  /** Reading the first `indices` positions of this `results` value raises. */
  predicate Unreadable(results: Json, indices: nat) {
    match results
    case JArr(items) => exists i :: 0 <= i < |items| && i < indices && !items[i].JObj?
    case JObj(fields) => |fields| > 0 && indices > 0
    case JStr(text) => |text| > 0 && indices > 0
    case _ => true
  }

  /** What one bulk send leaves: the new buffer, the failures logged, and the exception that ended the worker. */
  datatype BulkEffect = BulkEffect(buffer: seq<Command>, logged: seq<CommandFailure>, crash: Option<Error>)

  /**
   * `_send_bulk` with no producer running meanwhile: the first MaxBufferSize
   * commands are sent, `send_and_receive` comes back with `outcome`, and
   * every position of the buffer is reconciled. An exception from the
   * request or from reading `results` ends the worker before the buffer is
   * touched; so does the first failed command without a logger.
   */
  function BulkSend(buffer: seq<Command>, outcome: SyncTransport.Outcome, hasLogger: bool): (e: BulkEffect)
    ensures multiset(e.buffer) <= multiset(buffer)
    ensures !outcome.Returned? ==> e.crash == Some(outcome.error)
    ensures outcome.Returned? && BulkResults(outcome.envelope, |buffer|).None? ==> e.crash == Some(MalformedResponse)
    ensures e.crash.Some? ==> e.buffer == buffer && e.logged == []
    ensures e.logged != [] ==> hasLogger
    ensures e.crash.Some? && outcome.Returned? && e.crash != Some(MalformedResponse) ==>
              !hasLogger && e.crash.value.ServiceUnavailable? && e.crash.value.failure.Some?
    ensures e.crash.None? <==>
              outcome.Returned? && BulkResults(outcome.envelope, |buffer|).Some? &&
              (hasLogger || Failures(|buffer|, BulkResults(outcome.envelope, |buffer|).value) == [])
  {
    if !outcome.Returned? then BulkEffect(buffer, [], Some(outcome.error))
    else match BulkResults(outcome.envelope, |buffer|)
      case None => BulkEffect(buffer, [], Some(MalformedResponse))
      case Some(results) =>
        var failures := Failures(|buffer|, results);
        if hasLogger || failures == [] then
          ReconciledFromBuffer(buffer, |buffer|, results);
          BulkEffect(Reconciled(buffer, |buffer|, results), failures, None)
        else BulkEffect(buffer, [], Some(ServiceUnavailable(Some(failures[0]))))
  }

  /**
   * Without a logger, the first failed command ends the worker with
   * ServiceUnavailable carrying that command's report, the buffer untouched.
   */
  lemma BulkSendRaisesFirstFailure(buffer: seq<Command>, outcome: SyncTransport.Outcome, results: seq<map<string, Json>>)
    requires outcome.Returned? && BulkResults(outcome.envelope, |buffer|) == Some(results)
    requires Failures(|buffer|, results) != []
    ensures BulkSend(buffer, outcome, false) ==
            BulkEffect(buffer, [], Some(ServiceUnavailable(Some(Failures(|buffer|, results)[0]))))
  {
  }

  /**
   * A delivered bulk request whose `results` could be read: the buffer
   * becomes the retried commands and every failure is logged.
   */
  lemma BulkSendDelivered(buffer: seq<Command>, outcome: SyncTransport.Outcome, hasLogger: bool,
                          results: seq<map<string, Json>>)
    requires outcome.Returned? && BulkResults(outcome.envelope, |buffer|) == Some(results)
    requires hasLogger || Failures(|buffer|, results) == []
    ensures BulkSend(buffer, outcome, hasLogger) == BulkEffect(Leftovers(buffer, results), Failures(|buffer|, results), None)
  {
    assert buffer[..|buffer|] == buffer;
  }

  /** A run `r` that follows messages already sent and failures already logged. */
  function Continue(sent: seq<Json>, logged: seq<CommandFailure>, r: RunResult): RunResult {
    RunResult(r.end, sent + r.sent, logged + r.logged, r.buffer, r.flush)
  }

  lemma ContinueStep(sent: seq<Json>, logged: seq<CommandFailure>, message: Json, newlyLogged: seq<CommandFailure>,
                     rest: RunResult)
    ensures Continue(sent, logged, Continue([message], newlyLogged, rest)) == Continue(sent + [message], logged + newlyLogged, rest)
  {
    assert (sent + [message]) + rest.sent == sent + ([message] + rest.sent);
    assert (logged + newlyLogged) + rest.logged == logged + (newlyLogged + rest.logged);
  }

  /** The worker's invariant: once stopped, the buffer is empty or a flush is pending. */
  predicate StopFlushes(buffer: seq<Command>, flush: bool, stop: bool) {
    stop ==> flush || buffer == []
  }

  /** How a run of the worker loop ends. */
  datatype RunEnd =
    | Exited                      // stop was requested and nothing is due: the thread returns
    | Waiting(timeout: Option<int>) // blocked in `cv.wait(timeout)`
    | Sending                     // a bulk request is due but no reply is available yet
    | Crashed(error: Error)       // an exception ended the worker thread

  /** A run of the worker: how it ended, the bulk messages sent, the failures logged, and the final state. */
  datatype RunResult = RunResult(end: RunEnd, sent: seq<Json>, logged: seq<CommandFailure>, buffer: seq<Command>, flush: bool)

  /**
   * `Worker.run` from one wake-up until the worker blocks, exits or dies,
   * with no producer running meanwhile: `replies[k]` is the response
   * to the k-th bulk request, and the clock stands
   * at `now`. After a send the flush flag is
   * cleared exactly when the buffer has drained.
   */
  function WorkerRun(buffer: seq<Command>, flush: bool, stop: bool, now: int, replies: seq<SyncTransport.Response>,
                     hasLogger: bool): (r: RunResult)
    requires StopFlushes(buffer, flush, stop)
    ensures StopFlushes(r.buffer, r.flush, stop)
    ensures |r.sent| <= |replies|
    ensures Decide(buffer, flush, stop, now) != SendNow ==>
              r == RunResult(if stop then Exited else Waiting(Decide(buffer, flush, stop, now).timeout), [], [], buffer, flush)
    ensures Decide(buffer, flush, stop, now) == SendNow && replies != [] ==>
              r.sent != [] && r.sent[0] == BulkMessage(Batch(buffer))
    decreases |replies|, 1
  {
    var decision := Decide(buffer, flush, stop, now);
    if decision != SendNow then
      RunResult(if stop then Exited else Waiting(decision.timeout), [], [], buffer, flush)
    else if replies == [] then
      RunResult(Sending, [], [], buffer, flush)
    else
      AfterSend(buffer, flush, stop, now, replies, hasLogger)
  }

  /**
   * The loop's send branch within a run: the bulk request of the oldest
   * commands is answered by `replies[0]`; unless that ends the worker, the
   * run goes on from the reconciled buffer, with the flush flag cleared if
   * it has drained.
   */
  function AfterSend(buffer: seq<Command>, flush: bool, stop: bool, now: int, replies: seq<SyncTransport.Response>,
                     hasLogger: bool): (r: RunResult)
    requires StopFlushes(buffer, flush, stop) && replies != []
    ensures StopFlushes(r.buffer, r.flush, stop)
    ensures 0 < |r.sent| <= |replies| && r.sent[0] == BulkMessage(Batch(buffer))
    decreases |replies|, 0
  {
    var message := BulkMessage(Batch(buffer));
    var e := BulkSend(buffer, SyncTransport.SendAndReceive(replies[0]), hasLogger);
    if e.crash.Some? then
      RunResult(Crashed(e.crash.value), [message], e.logged, e.buffer, flush)
    else
      var rest := WorkerRun(e.buffer, if e.buffer == [] then false else flush, stop, now, replies[1..], hasLogger);
      RunResult(rest.end, [message] + rest.sent, e.logged + rest.logged, rest.buffer, rest.flush)
  }

  /** A due bulk request whose send crashes ends the run there. */
  lemma WorkerRunCrashes(buffer: seq<Command>, flush: bool, stop: bool, now: int,
                         replies: seq<SyncTransport.Response>, hasLogger: bool, e: BulkEffect)
    requires StopFlushes(buffer, flush, stop) && Decide(buffer, flush, stop, now) == SendNow && replies != []
    requires e == BulkSend(buffer, SyncTransport.SendAndReceive(replies[0]), hasLogger) && e.crash.Some?
    ensures WorkerRun(buffer, flush, stop, now, replies, hasLogger) ==
            RunResult(Crashed(e.crash.value), [BulkMessage(Batch(buffer))], e.logged, e.buffer, flush)
  {
  }

  /** A due bulk request whose send completes: the run is that send followed by the rest of the run. */
  lemma WorkerRunContinues(buffer: seq<Command>, flush: bool, stop: bool, now: int,
                           replies: seq<SyncTransport.Response>, hasLogger: bool, e: BulkEffect, flush': bool)
    requires StopFlushes(buffer, flush, stop) && Decide(buffer, flush, stop, now) == SendNow && replies != []
    requires e == BulkSend(buffer, SyncTransport.SendAndReceive(replies[0]), hasLogger) && e.crash.None?
    requires flush' == (if e.buffer == [] then false else flush)
    ensures StopFlushes(e.buffer, flush', stop)
    ensures WorkerRun(buffer, flush, stop, now, replies, hasLogger) ==
            Continue([BulkMessage(Batch(buffer))], e.logged, WorkerRun(e.buffer, flush', stop, now, replies[1..], hasLogger))
  {
  }

  /** With nothing due, or no outcome left for a due request, the run stops where it is. */
  lemma WorkerRunStops(buffer: seq<Command>, flush: bool, stop: bool, now: int,
                       replies: seq<SyncTransport.Response>, hasLogger: bool)
    requires StopFlushes(buffer, flush, stop)
    requires Decide(buffer, flush, stop, now) != SendNow || replies == []
    ensures WorkerRun(buffer, flush, stop, now, replies, hasLogger) ==
            RunResult(if Decide(buffer, flush, stop, now) == SendNow then Sending
                      else if stop then Exited else Waiting(Decide(buffer, flush, stop, now).timeout),
                      [], [], buffer, flush)
  {
  }

  /** A run that stops at once, after messages already sent and failures already logged. */
  lemma RunEndsHere(sent: seq<Json>, logged: seq<CommandFailure>, buffer: seq<Command>, flush: bool, stop: bool,
                    now: int, replies: seq<SyncTransport.Response>, hasLogger: bool)
    requires StopFlushes(buffer, flush, stop)
    requires Decide(buffer, flush, stop, now) != SendNow || replies == []
    ensures var d := Decide(buffer, flush, stop, now);
            Continue(sent, logged, WorkerRun(buffer, flush, stop, now, replies, hasLogger)) ==
            RunResult(if d == SendNow then Sending else if stop then Exited else Waiting(d.timeout), sent, logged, buffer, flush)
  {
    WorkerRunStops(buffer, flush, stop, now, replies, hasLogger);
    assert sent + [] == sent && logged + [] == logged;
  }

  /**
   * How a run ends: it exits only when stopped with nothing buffered, waits
   * only when not stopped and nothing is due, is left sending only when the
   * replies ran out, and crashes only after a request was sent.
   */
  lemma {:induction false} WorkerRunEnds(buffer: seq<Command>, flush: bool, stop: bool, now: int,
                                         replies: seq<SyncTransport.Response>, hasLogger: bool)
    requires StopFlushes(buffer, flush, stop)
    ensures var r := WorkerRun(buffer, flush, stop, now, replies, hasLogger);
            (r.end == Exited ==> stop && r.buffer == []) &&
            (r.end.Waiting? ==> !stop && Decide(r.buffer, r.flush, stop, now) == Wait(r.end.timeout)) &&
            (r.end == Sending ==> |r.sent| == |replies| && Decide(r.buffer, r.flush, stop, now) == SendNow) &&
            (r.end.Crashed? ==> r.sent != [])
    decreases |replies|
  {
    if Decide(buffer, flush, stop, now) == SendNow && replies != [] {
      var e := BulkSend(buffer, SyncTransport.SendAndReceive(replies[0]), hasLogger);
      if e.crash.None? {
        var f := if e.buffer == [] then false else flush;
        WorkerRunContinues(buffer, flush, stop, now, replies, hasLogger, e, f);
        WorkerRunEnds(e.buffer, f, stop, now, replies[1..], hasLogger);
      } else {
        WorkerRunCrashes(buffer, flush, stop, now, replies, hasLogger, e);
      }
    }
  }

  /**
   * A run never adds a command, logs only with a logger, never sets the
   * flush flag, and clears it only once the buffer has drained.
   */
  lemma {:induction false} WorkerRunKeeps(buffer: seq<Command>, flush: bool, stop: bool, now: int,
                                          replies: seq<SyncTransport.Response>, hasLogger: bool)
    requires StopFlushes(buffer, flush, stop)
    ensures var r := WorkerRun(buffer, flush, stop, now, replies, hasLogger);
            multiset(r.buffer) <= multiset(buffer) && (r.logged != [] ==> hasLogger) &&
            (r.flush ==> flush) && (flush && !r.flush ==> r.buffer == [])
    decreases |replies|
  {
    if Decide(buffer, flush, stop, now) == SendNow && replies != [] {
      var e := BulkSend(buffer, SyncTransport.SendAndReceive(replies[0]), hasLogger);
      if e.crash.None? {
        var f := if e.buffer == [] then false else flush;
        WorkerRunContinues(buffer, flush, stop, now, replies, hasLogger, e, f);
        WorkerRunKeeps(e.buffer, f, stop, now, replies[1..], hasLogger);
        var rest := WorkerRun(e.buffer, f, stop, now, replies[1..], hasLogger);
        assert multiset(rest.buffer) <= multiset(e.buffer) <= multiset(buffer);
      } else {
        WorkerRunCrashes(buffer, flush, stop, now, replies, hasLogger, e);
      }
    }
  }

  /**
   * One reply to a due bulk request, delivered: the buffer the run goes on
   * with is the reconciled snapshot, and the run ends as the worker then
   * decides (with the flush flag cleared on an empty buffer).
   */
  lemma SingleDeliveredSend(buffer: seq<Command>, flush: bool, stop: bool, now: int, reply: SyncTransport.Response,
                            hasLogger: bool, results: seq<map<string, Json>>)
    requires StopFlushes(buffer, flush, stop) && Decide(buffer, flush, stop, now) == SendNow
    requires SyncTransport.SendAndReceive(reply).Returned?
    requires BulkResults(SyncTransport.SendAndReceive(reply).envelope, |buffer|) == Some(results)
    requires hasLogger || Failures(|buffer|, results) == []
    ensures var after := Leftovers(buffer, results);
            var flush' := after != [] && flush;
            var d := Decide(after, flush', stop, now);
            WorkerRun(buffer, flush, stop, now, [reply], hasLogger) ==
            RunResult(if d == SendNow then Sending else if stop then Exited else Waiting(d.timeout),
                      [BulkMessage(Batch(buffer))], Failures(|buffer|, results), after, flush')
  {
    BulkSendDelivered(buffer, SyncTransport.SendAndReceive(reply), hasLogger, results);
    var e := BulkEffect(Leftovers(buffer, results), Failures(|buffer|, results), None);
    var f := if e.buffer == [] then false else flush;
    WorkerRunContinues(buffer, flush, stop, now, [reply], hasLogger, e, f);
    assert [reply][1..] == [];
    RunEndsHere([BulkMessage(Batch(buffer))], e.logged, e.buffer, f, stop, now, [], hasLogger);
  }

  class AsynchronousTransport {
    var buffer: seq<Command>
    var flush: bool
    var stop: bool
    const hasLogger: bool

    /** Once stopped, the buffer is empty or a flush is pending. */
    ghost predicate Valid()
      reads this
    {
      stop ==> flush || buffer == []
    }

    constructor (hasLogger: bool)
      ensures Valid() && this.hasLogger == hasLogger
      ensures buffer == [] && !flush && !stop
    {
      this.hasLogger := hasLogger;
      buffer, flush, stop := [], false, false;
    }

    /** `send_and_ignore`: refused once stopped, otherwise one command appended at the end. */
    method Enqueue(service: string, message: Json, now: int) returns (r: Result<(), Error>)
      requires Valid()
      modifies this
      ensures Valid()
      ensures old(stop) ==> r == Err(ValueError(ApiClosed)) && buffer == old(buffer)
      ensures !old(stop) ==> r == Ok(()) && buffer == old(buffer) + [Command(service, message, now)]
      ensures flush == old(flush) && stop == old(stop)
    {
      if stop {
        return Err(ValueError(ApiClosed));
      }
      buffer := buffer + [Command(service, message, now)];
      r := Ok(());
    }

    /** `flush`: requests a send; nothing else changes. */
    method Flush()
      requires Valid()
      modifies this
      ensures Valid()
      ensures flush && buffer == old(buffer) && stop == old(stop)
    {
      flush := true;
    }

    /** `stop`: requests both a final flush and the worker's exit. */
    method Stop()
      requires Valid()
      modifies this
      ensures Valid()
      ensures flush && stop && buffer == old(buffer)
    {
      stop := true;
      flush := true;
    }

    /** The snapshot `_send_bulk` takes under the lock: the buffer's length and the bulk message. */
    method Snapshot() returns (indices: nat, message: Json)
      ensures indices == |buffer|
      ensures message == BulkMessage(Batch(buffer))
    {
      indices := |buffer|;
      message := BulkMessage(Batch(buffer));
    }

    /**
     * The reconciliation after the bulk request, with the lock held again.
     * The buffer may have grown since the snapshot of `indices` commands.
     * With a logger every failure is logged and the buffer becomes the
     * leftovers; without one the first failure is raised and the buffer is
     * left as it is.
     */
    method Reconcile(indices: nat, results: seq<map<string, Json>>) returns (logged: seq<CommandFailure>, raised: Option<Error>)
      requires Valid() && indices <= |buffer|
      modifies this
      ensures Valid()
      ensures flush == old(flush) && stop == old(stop)
      ensures var failures := Failures(indices, results);
              if hasLogger || failures == [] then
                raised == None && logged == failures && buffer == Reconciled(old(buffer), indices, results)
              else
                raised == Some(ServiceUnavailable(Some(failures[0]))) && logged == [] && buffer == old(buffer)
    {
      var leftovers, errors := SortOutcomes(buffer, indices, results);
      logged := [];
      for k := 0 to |errors|
        invariant logged == errors[..k]
        invariant !hasLogger ==> k == 0
      {
        if hasLogger {
          logged := logged + [errors[k]];
        } else {
          return [], Some(ServiceUnavailable(Some(errors[k])));
        }
      }
      assert errors[..|errors|] == errors;
      buffer := leftovers;
      raised := None;
    }

    /** Corrected reconciliation: the leftovers go back ahead of what was appended meanwhile. */
    method ReconcileKeepingAppended(indices: nat, results: seq<map<string, Json>>)
      returns (logged: seq<CommandFailure>, raised: Option<Error>)
      requires Valid() && indices <= |buffer|
      modifies this
      ensures Valid()
      ensures flush == old(flush) && stop == old(stop)
      ensures var failures := Failures(indices, results);
              if hasLogger || failures == [] then
                raised == None && logged == failures && buffer == ReconciledKeepingAppended(old(buffer), indices, results)
              else
                raised == Some(ServiceUnavailable(Some(failures[0]))) && logged == [] && buffer == old(buffer)
    {
      var leftovers, errors := SortOutcomes(buffer, indices, results);
      logged := [];
      for k := 0 to |errors|
        invariant logged == errors[..k]
        invariant !hasLogger ==> k == 0
      {
        if hasLogger {
          logged := logged + [errors[k]];
        } else {
          return [], Some(ServiceUnavailable(Some(errors[k])));
        }
      }
      assert errors[..|errors|] == errors;
      buffer := leftovers + buffer[indices..];
      raised := None;
    }

    /**
     * `_send_bulk`: snapshot under the lock, one bulk request answered by
     * `reply`, then the reconciliation. No producer runs in between here.
     */
    method SendBulk(reply: SyncTransport.Response) returns (message: Json, logged: seq<CommandFailure>, crash: Option<Error>)
      requires Valid()
      modifies this
      ensures Valid() && flush == old(flush) && stop == old(stop)
      ensures message == BulkMessage(Batch(old(buffer)))
      ensures BulkSend(old(buffer), SyncTransport.SendAndReceive(reply), hasLogger) == BulkEffect(buffer, logged, crash)
    {
      var indices;
      indices, message := Snapshot();
      var outcome := SyncTransport.SendAndReceive(reply);
      if !outcome.Returned? {
        return message, [], Some(outcome.error);
      }
      var results := BulkResults(outcome.envelope, indices);
      if results.None? {
        return message, [], Some(MalformedResponse);
      }
      logged, crash := Reconcile(indices, results.value);
    }

    /**
     * The loop's send branch: `_send_bulk` answered by `replies[0]`, then
     * the flush flag is cleared once the buffer has drained (an exception
     * leaves both as they were). The run from here is this send followed by
     * the run from the new state on the remaining replies.
     */
    method SendDue(now: int, replies: seq<SyncTransport.Response>)
      returns (message: Json, logged: seq<CommandFailure>, crash: Option<Error>)
      requires Valid() && Decide(buffer, flush, stop, now) == SendNow && replies != []
      modifies this
      ensures Valid() && stop == old(stop)
      ensures crash.Some? ==> WorkerRun(old(buffer), old(flush), stop, now, replies, hasLogger) ==
                                RunResult(Crashed(crash.value), [message], logged, buffer, flush)
      ensures crash.None? ==> WorkerRun(old(buffer), old(flush), stop, now, replies, hasLogger) ==
                                Continue([message], logged, WorkerRun(buffer, flush, stop, now, replies[1..], hasLogger))
    {
      ghost var b, f := buffer, flush;
      message, logged, crash := SendBulk(replies[0]);
      ghost var e := BulkSend(b, SyncTransport.SendAndReceive(replies[0]), hasLogger);
      if crash.Some? {
        WorkerRunCrashes(b, f, stop, now, replies, hasLogger, e);
        return;
      }
      if |buffer| == 0 {
        flush := false;
      }
      WorkerRunContinues(b, f, stop, now, replies, hasLogger, e, flush);
    }

    /**
     * One pass of the worker loop that sends: with `total` the whole run so
     * far as messages `sent` and failures `logged` followed by the run from
     * the current state, the same holds after the send, or the run ended in
     * the crash.
     */
    method Step(now: int, pending: seq<SyncTransport.Response>, ghost total: RunResult, ghost sent: seq<Json>,
                ghost logged: seq<CommandFailure>)
      returns (message: Json, newlyLogged: seq<CommandFailure>, crash: Option<Error>)
      requires Valid() && Decide(buffer, flush, stop, now) == SendNow && pending != []
      requires total == Continue(sent, logged, WorkerRun(buffer, flush, stop, now, pending, hasLogger))
      modifies this
      ensures Valid() && stop == old(stop)
      ensures crash.Some? ==> total == RunResult(Crashed(crash.value), sent + [message], logged + newlyLogged, buffer, flush)
      ensures crash.None? ==>
                total == Continue(sent + [message], logged + newlyLogged, WorkerRun(buffer, flush, stop, now, pending[1..], hasLogger))
    {
      message, newlyLogged, crash := SendDue(now, pending);
      if crash.None? {
        ContinueStep(sent, logged, message, newlyLogged, WorkerRun(buffer, flush, stop, now, pending[1..], hasLogger));
      }
    }

    /**
     * `Worker.run`, from one wake-up until the worker blocks, exits or dies,
     * with no producer running meanwhile. `replies[k]` is the response to
     * the k-th bulk request; the clock stands at `now` throughout.
     */
    method Run(now: int, replies: seq<SyncTransport.Response>)
      returns (end: RunEnd, sent: seq<Json>, logged: seq<CommandFailure>)
      requires Valid()
      modifies this
      ensures Valid() && stop == old(stop)
      ensures WorkerRun(old(buffer), old(flush), stop, now, replies, hasLogger) == RunResult(end, sent, logged, buffer, flush)
    {
      sent, logged := [], [];
      var pending := replies;
      ghost var total := WorkerRun(buffer, flush, stop, now, replies, hasLogger);
      assert [] + total.sent == total.sent && [] + total.logged == total.logged;
      while Decide(buffer, flush, stop, now) == SendNow && pending != []
        invariant Valid() && stop == old(stop)
        invariant total == Continue(sent, logged, WorkerRun(buffer, flush, stop, now, pending, hasLogger))
        decreases |pending|
      {
        var message, newlyLogged, crash := Step(now, pending, total, sent, logged);
        sent, logged, pending := sent + [message], logged + newlyLogged, pending[1..];
        if crash.Some? {
          return Crashed(crash.value), sent, logged;
        }
      }
      var decision := Decide(buffer, flush, stop, now);
      end := if decision == SendNow then Sending else if stop then Exited else Waiting(decision.timeout);
      RunEndsHere(sent, logged, buffer, flush, stop, now, pending, hasLogger);
    }
  }
}
