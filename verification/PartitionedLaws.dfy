/** What every interleaving of the partitioned engine keeps, and what follows. */
module PartitionedLaws {
  import opened Types
  import opened Risk
  import opened Channels
  import opened Partitioned
  import Engine

  // ---------------------------------------------------------------------
  // One shard

  lemma {:induction false} NotInLog(k: Config, calls: map<nat, Call>, i: nat, sh: Shard, id: nat)
    requires Constructed(k) && ShardOk(k, calls, i, sh)
    requires id in calls ==> calls[id].owner.Absent? || ShardIndex(k, calls[id].ticket.symbol) != i
    ensures forall j :: 0 <= j < |sh.channel.log| ==> sh.channel.log[j].id != id
  {
    hide ShardIndex, EnginesOk, ResultOk, CursorOk;
    forall j | 0 <= j < |sh.channel.log|
      ensures sh.channel.log[j].id != id
    {
      assert EntryOk(k, calls, i, sh, j);
    }
  }

  lemma {:induction false} Untouched(k: Config, calls: map<nat, Call>, i: nat, sh: Shard, id: nat, c: Call)
    requires Constructed(k) && ShardOk(k, calls, i, sh)
    requires forall j :: 0 <= j < |sh.channel.log| ==> sh.channel.log[j].id != id
    ensures ShardOk(k, calls[id := c], i, sh)
  {
    hide ShardIndex, EnginesOk, ResultAt;
    var log, calls' := sh.channel.log, calls[id := c];
    forall j | 0 <= j < |log|
      ensures EntryOk(k, calls', i, sh, j)
    {
      assert EntryOk(k, calls, i, sh, j);
    }
    forall j | 0 <= j < sh.applied
      ensures ResultOk(k.risk, calls', log, j)
    {
      assert ResultOk(k.risk, calls, log, j);
    }
  }

  lemma {:induction false} SameOwner(k: Config, calls: map<nat, Call>, i: nat, sh: Shard, id: nat, c: Call)
    requires Constructed(k) && ShardOk(k, calls, i, sh)
    requires id in calls && c.ticket == calls[id].ticket && c.owner == calls[id].owner
    ensures ShardOk(k, calls[id := c], i, sh)
  {
    hide ShardIndex, EnginesOk, ResultAt;
    var log, calls' := sh.channel.log, calls[id := c];
    forall j | 0 <= j < |log|
      ensures EntryOk(k, calls', i, sh, j)
    {
      assert EntryOk(k, calls, i, sh, j);
    }
    forall j | 0 <= j < sh.applied
      ensures ResultOk(k.risk, calls', log, j)
    {
      assert ResultOk(k.risk, calls, log, j);
    }
  }

  /** Appending to the log changes nothing about the entries before it. */
  lemma {:induction false} ResultAtPrefix(risk: RiskConfig, log: seq<Ticket>, log': seq<Ticket>, j: nat)
    requires log <= log' && j < |log|
    ensures ResultAt(risk, log', j) == ResultAt(risk, log, j)
  {
    hide CommandsOf;
    assert log'[..j] == log[..j];
  }

  lemma {:induction false} PushShard(k: Config, calls: map<nat, Call>, i: nat, sh: Shard, id: nat, c: Call)
    requires Constructed(k) && ShardOk(k, calls, i, sh) && !sh.channel.closed
    requires id in calls && calls[id].owner.Absent?
    requires c.ticket == calls[id].ticket && c.ticket.id == id && ShardIndex(k, c.ticket.symbol) == i
    requires c.owner == Queued
    ensures ShardOk(k, calls[id := c], i, sh.(channel := sh.channel.(log := sh.channel.log + [c.ticket])))
  {
    hide ShardIndex, EnginesOk, ResultAt;
    NotInLog(k, calls, i, sh, id);
    Untouched(k, calls, i, sh, id, c);
    var log, calls' := sh.channel.log, calls[id := c];
    var sh' := sh.(channel := sh.channel.(log := log + [c.ticket]));
    forall j | 0 <= j < |log| + 1
      ensures EntryOk(k, calls', i, sh', j)
    {
      if j < |log| {
        assert EntryOk(k, calls', i, sh, j);
      }
    }
    forall j | 0 <= j < sh.applied
      ensures ResultOk(k.risk, calls', sh'.channel.log, j)
    {
      assert ResultOk(k.risk, calls', log, j);
      ResultAtPrefix(k.risk, log, sh'.channel.log, j);
    }
    EnginesPrefix(k.risk, sh, sh');
  }

  lemma {:induction false} EnginesPrefix(risk: RiskConfig, sh: Shard, sh': Shard)
    requires sh.applied <= |sh.channel.log| && EnginesOk(risk, sh)
    requires sh.channel.log <= sh'.channel.log && sh'.applied == sh.applied && sh'.engines == sh.engines
    ensures EnginesOk(risk, sh')
  {
    assert sh'.channel.log[..sh.applied] == sh.channel.log[..sh.applied];
  }

  /** The owner moves `log[n]` from one stage to the next. Nothing else in the
      log notices. */
  lemma {:induction false} MoveEntry(k: Config, calls: map<nat, Call>, i: nat, sh: Shard, n: nat, c: Call, sh': Shard)
    requires Constructed(k) && ShardOk(k, calls, i, sh) && n < |sh.channel.log|
    requires c.ticket == sh.channel.log[n]
    requires sh'.channel.log == sh.channel.log && n <= sh'.channel.popped <= |sh.channel.log|
    requires sh.channel.popped <= n + 1 && sh'.channel.popped <= n + 1
    requires sh.busy ==> n == sh.channel.popped - 1
    requires !sh.busy ==> n == sh.channel.popped
    requires sh'.busy ==> sh'.channel.popped == n + 1 && c.owner.InHand()
    requires !sh'.busy ==> sh'.channel.popped == n + 1 && c.owner.Finished?
    ensures EntriesOk(k, calls[c.ticket.id := c], i, sh')
  {
    hide ShardIndex, EnginesOk, ResultOk;
    var log, calls' := sh.channel.log, calls[c.ticket.id := c];
    assert EntryOk(k, calls, i, sh, n);
    forall j | 0 <= j < |log|
      ensures EntryOk(k, calls', i, sh', j)
    {
      assert EntryOk(k, calls, i, sh, j);
    }
  }

  ghost predicate SameResult(c: Call, c': Call) {
    c.owner.HasResult() && c'.owner.HasResult() && c.owner.result == c'.owner.result
  }

  /** The result of `log[n]` is new or stays, and no other result changes. */
  lemma {:induction false} MoveResults(k: Config, calls: map<nat, Call>, i: nat, sh: Shard, n: nat, c: Call)
    requires Constructed(k) && ShardOk(k, calls, i, sh) && n < |sh.channel.log|
    requires c.ticket == sh.channel.log[n]
    requires n < sh.applied ==> SameResult(calls[c.ticket.id], c)
    ensures ResultsOk(k.risk, calls[c.ticket.id := c], sh.channel.log, sh.applied)
  {
    hide ShardIndex, EnginesOk, ResultAt, EntryOk;
    var log, calls' := sh.channel.log, calls[c.ticket.id := c];
    forall j | 0 <= j < sh.applied
      ensures ResultOk(k.risk, calls', log, j)
    {
      assert ResultOk(k.risk, calls, log, j);
    }
  }

  lemma {:induction false} PopShard(k: Config, calls: map<nat, Call>, i: nat, sh: Shard, c: Call)
    requires Constructed(k) && ShardOk(k, calls, i, sh) && !sh.busy && !sh.exited
    requires sh.channel.popped < |sh.channel.log|
    requires c == calls[sh.channel.log[sh.channel.popped].id].(owner := Held)
    ensures c.ticket == sh.channel.log[sh.channel.popped]
    ensures ShardOk(k, calls[c.ticket.id := c], i,
                    sh.(channel := sh.channel.(popped := sh.channel.popped + 1), busy := true))
  {
    hide ShardIndex, EnginesOk, ResultOk;
    var n := sh.channel.popped;
    assert EntryOk(k, calls, i, sh, n);
    var sh' := sh.(channel := sh.channel.(popped := n + 1), busy := true);
    MoveEntry(k, calls, i, sh, n, c, sh');
    MoveResults(k, calls, i, sh, n, c);
    EnginesPrefix(k.risk, sh, sh');
  }

  /** After applying the next command every engine is where its symbol's commands
      lead it. */
  lemma {:induction false} ApplyEngines(risk: RiskConfig, sh: Shard, sh': Shard)
    requires sh.applied < |sh.channel.log| && EnginesOk(risk, sh)
    requires sh'.channel.log == sh.channel.log && sh'.applied == sh.applied + 1
    requires var t := sh.channel.log[sh.applied];
             var out := Engine.Apply(risk, EngineFor(sh.engines, t.symbol), t.command);
             sh'.engines == sh.engines[t.symbol := out.engine]
    ensures EnginesOk(risk, sh')
  {
    hide Engine.Apply;
    var n, log := sh.applied, sh.channel.log;
    assert log[..n + 1][..n] == log[..n];
    forall y: Symbol
      ensures EngineFor(sh'.engines, y) == Engine.Run(risk, Engine.EMPTY, CommandsOf(log[..n + 1], y))
    {
      var before := CommandsOf(log[..n], y);
      if y == log[n].symbol {
        assert (before + [log[n].command])[..|before|] == before;
      } else {
        assert before + [] == before;
      }
    }
  }

  lemma {:induction false} ApplyShard(k: Config, calls: map<nat, Call>, i: nat, sh: Shard, c: Call, sh': Shard)
    requires Constructed(k) && ShardOk(k, calls, i, sh) && sh.busy
    requires c.ticket == sh.Hand() && calls[c.ticket.id].owner.Held?
    requires var out := Engine.Apply(k.risk, EngineFor(sh.engines, c.ticket.symbol), c.ticket.command);
             && c.owner == Applied(Result(out.report, out.trades))
             && sh' == sh.(applied := sh.applied + 1, engines := sh.engines[c.ticket.symbol := out.engine])
    ensures ShardOk(k, calls[c.ticket.id := c], i, sh')
  {
    hide ShardIndex, Engine.Apply, EnginesOk, CommandsOf, Engine.Run;
    var n, log := sh.applied, sh.channel.log;
    MoveEntry(k, calls, i, sh, n, c, sh');
    MoveResults(k, calls, i, sh, n, c);
    ApplyEngines(k.risk, sh, sh');
    AppliedResult(k.risk, sh, c);
  }

  lemma {:induction false} AppliedResult(risk: RiskConfig, sh: Shard, c: Call)
    requires sh.applied < |sh.channel.log| && EnginesOk(risk, sh) && c.ticket == sh.channel.log[sh.applied]
    requires var out := Engine.Apply(risk, EngineFor(sh.engines, c.ticket.symbol), c.ticket.command);
             c.owner == Applied(Result(out.report, out.trades))
    ensures c.owner.result == ResultAt(risk, sh.channel.log, sh.applied)
  {
    hide Engine.Apply, CommandsOf, Engine.Run;
  }

  lemma {:induction false} AdvanceShard(k: Config, calls: map<nat, Call>, i: nat, sh: Shard, c: Call)
    requires Constructed(k) && ShardOk(k, calls, i, sh) && sh.busy
    requires c.ticket == sh.Hand() && calls[c.ticket.id].owner.HasResult()
    requires c.owner.HasResult() && c.owner.InHand() && c.owner.result == calls[c.ticket.id].owner.result
    ensures ShardOk(k, calls[c.ticket.id := c], i, sh)
  {
    hide ShardIndex, EnginesOk, ResultOk;
    var n := sh.channel.popped - 1;
    MoveEntry(k, calls, i, sh, n, c, sh);
    MoveResults(k, calls, i, sh, n, c);
  }

  lemma {:induction false} FinishShard(k: Config, calls: map<nat, Call>, i: nat, sh: Shard, c: Call)
    requires Constructed(k) && ShardOk(k, calls, i, sh) && sh.busy
    requires c.ticket == sh.Hand() && calls[c.ticket.id].owner.HasResult()
    requires c.owner == Finished(calls[c.ticket.id].owner.result)
    ensures ShardOk(k, calls[c.ticket.id := c], i, sh.(busy := false))
  {
    hide ShardIndex, EnginesOk, ResultOk;
    var n := sh.channel.popped - 1;
    assert EntryOk(k, calls, i, sh, n);
    MoveEntry(k, calls, i, sh, n, c, sh.(busy := false));
    MoveResults(k, calls, i, sh, n, c);
    EnginesPrefix(k.risk, sh, sh.(busy := false));
  }

  // ---------------------------------------------------------------------
  // All shards

  /** The step moved call `c`, and touched no shard but the one that `c` belongs
      to, whose new state is sound and whose log only grew. */
  lemma {:induction false} ShardsKeep(k: Config, s: System, c: Call, i: nat, sh': Shard)
    requires Inv(k, s) && i < |s.shards| && ShardIndex(k, c.ticket.symbol) == i
    requires c.ticket.id in s.calls && s.calls[c.ticket.id].ticket == c.ticket
    requires ShardOk(k, s.calls[c.ticket.id := c], i, sh')
    ensures var shards' := s.shards[i := sh'];
            forall m :: 0 <= m < |shards'| ==> ShardOk(k, s.calls[c.ticket.id := c], m, shards'[m])
  {
    hide ShardIndex, ShardOk, CountersOk;
    var shards' := s.shards[i := sh'];
    forall m | 0 <= m < |shards'|
      ensures ShardOk(k, s.calls[c.ticket.id := c], m, shards'[m])
    {
      if m != i {
        NotInLog(k, s.calls, m, s.shards[m], c.ticket.id);
        Untouched(k, s.calls, m, s.shards[m], c.ticket.id, c);
      }
    }
  }

  /** Tickets stay logged while logs only grow. */
  lemma {:induction false} LoggedKeeps(k: Config, s: System, c: Call, i: nat, sh': Shard, s': System)
    requires Inv(k, s) && i < |s.shards| && ShardIndex(k, c.ticket.symbol) == i
    requires c.ticket.id in s.calls && s.calls[c.ticket.id].ticket == c.ticket
    requires s.shards[i].channel.log <= sh'.channel.log
    requires !c.owner.Absent? ==> c.ticket in sh'.channel.log
    requires s'.calls == s.calls[c.ticket.id := c] && s'.shards == s.shards[i := sh']
    ensures forall id :: id in s'.calls && !s'.calls[id].owner.Absent? ==> Logged(k, s', id)
  {
    hide ShardIndex, ShardOk, CountersOk, CallOk;
    forall id | id in s'.calls && !s'.calls[id].owner.Absent?
      ensures Logged(k, s', id)
    {
      if id != c.ticket.id {
        assert Logged(k, s, id);
      }
    }
  }

  /** A step of the calling thread leaves the owner's view alone. */
  lemma {:induction false} CallerKeeps(k: Config, s: System, c: Call, s': System)
    requires Inv(k, s)
    requires c.ticket.id in s.calls ==> s.calls[c.ticket.id].ticket == c.ticket && s.calls[c.ticket.id].owner == c.owner
    requires c.ticket.id !in s.calls ==> c.owner == Absent
    requires s'.calls == s.calls[c.ticket.id := c] && s'.shards == s.shards
    ensures forall id :: id in s'.calls && !s'.calls[id].owner.Absent? ==> Logged(k, s', id)
    ensures forall m :: 0 <= m < |s'.shards| ==> ShardOk(k, s'.calls, m, s'.shards[m])
  {
    hide ShardIndex, ShardOk, CountersOk, CallOk;
    var id := c.ticket.id;
    forall m | 0 <= m < |s'.shards|
      ensures ShardOk(k, s'.calls, m, s'.shards[m])
    {
      if id in s.calls {
        SameOwner(k, s.calls, m, s.shards[m], id, c);
      } else {
        NotInLog(k, s.calls, m, s.shards[m], id);
        Untouched(k, s.calls, m, s.shards[m], id, c);
      }
    }
    forall d | d in s'.calls && !s'.calls[d].owner.Absent?
      ensures Logged(k, s', d)
    {
      assert d in s.calls && !s.calls[d].owner.Absent?;
      assert Logged(k, s, d);
    }
  }

  // ---------------------------------------------------------------------
  // Steps

  lemma {:induction false} InvIsWellFormed(k: Config, s: System)
    requires Inv(k, s)
    ensures WellFormed(k, s)
  {
    hide EntriesOk, EnginesOk, ResultsOk, CountersOk, CallOk, Logged;
  }

  /** What a caller's own step must respect: its owner side is untouched, its
      call is sound and the counters follow. */
  lemma {:induction false} CallerStepKeeps(k: Config, s: System, c: Call, s': System)
    requires Inv(k, s) && CallOk(s.accepting, c.ticket.id, c)
    requires c.ticket.id in s.calls ==> s.calls[c.ticket.id].ticket == c.ticket && s.calls[c.ticket.id].owner == c.owner
    requires c.ticket.id !in s.calls ==> c.owner == Absent
    requires s'.calls == s.calls[c.ticket.id := c] && s'.shards == s.shards
    requires s'.accepting == s.accepting && s'.closing == s.closing && s'.joined == s.joined
    requires CountersOk(s')
    ensures Inv(k, s')
  {
    hide ShardIndex, ShardOk, CountersOk, CallOk, Logged;
    CallerKeeps(k, s, c, s');
  }

  ghost predicate CallerLabel(l: Label) {
    l.Begin? || l.Count? || l.Refuse? || l.Submitted? || l.Uncount? || l.Reject?
  }

  /** The call after a caller's step. */
  ghost function CallerMove(s: System, l: Label): Call
    requires CallerLabel(l) && (!l.Begin? ==> l.id in s.calls)
  {
    match l
    case Begin(id, symbol, command, mode) =>
      var c := Call(Ticket(id, symbol, command), mode, Entered, Absent, []);
      if s.accepting then c else GiveUp(c)
    case Count(id) => s.calls[id].(caller := Counted)
    case Refuse(id) => s.calls[id].(caller := Caller.Refused)
    case Submitted(id) => s.calls[id].(caller := Returned(true))
    case Uncount(id) => GiveUp(s.calls[id])
    case _ =>
      var c := s.calls[l.id];
      c.(caller := Returned(false), answers := c.answers + [Rejection(c.ticket.command)])
  }

  lemma {:induction false} RefusalMeansClosed(k: Config, s: System, i: nat)
    requires Inv(k, s) && i < |s.shards| && s.shards[i].channel.closed
    ensures !s.accepting
  {
  }

  lemma {:induction false} CallerMoveOk(k: Config, s: System, l: Label, s': System)
    requires Inv(k, s) && WellFormed(k, s) && Step(k, s, l, s') && CallerLabel(l)
    ensures !l.Begin? ==> l.id in s.calls
    ensures CallOk(s.accepting, l.id, CallerMove(s, l))
  {
    hide Inv, ShardIndex, Traceable;
    CallTicket(k, s, l.id);
    if l.Refuse? && s.calls[l.id].mode != TryEnqueue {
      RefusalMeansClosed(k, s, ShardIndex(k, s.calls[l.id].ticket.symbol));
    }
  }

  lemma {:induction false} CallerCounts(k: Config, s: System, l: Label, s': System)
    requires Inv(k, s) && WellFormed(k, s) && Step(k, s, l, s') && CallerLabel(l)
    ensures CountersOk(s')
  {
    hide Inv, CountersOk, ShardIndex, Traceable, Size, Answers, Happens;
    CallTicket(k, s, l.id);
    CountsMove(k, s, l.id, CallerMove(s, l), s');
  }

  lemma {:induction false} CallerLabelKeeps(k: Config, s: System, l: Label, s': System)
    requires Inv(k, s) && WellFormed(k, s) && Step(k, s, l, s') && CallerLabel(l)
    ensures Inv(k, s')
  {
    hide Inv, CountersOk, CallOk, ShardIndex, Traceable;
    CallerMoveOk(k, s, l, s');
    CallerCounts(k, s, l, s');
    CallTicket(k, s, l.id);
    CallerStepKeeps(k, s, CallerMove(s, l), s');
  }

  lemma {:induction false} CallTicket(k: Config, s: System, id: nat)
    requires Inv(k, s)
    ensures id in s.calls ==> CallOk(s.accepting, id, s.calls[id]) && s.calls[id].ticket.id == id
  {
    hide ShardOk, CountersOk, Logged;
  }

  /** A step of an owner, or a push: one call and its shard change together. */
  lemma {:induction false} OwnerStepKeeps(k: Config, s: System, c: Call, i: nat, sh': Shard, s': System)
    requires Inv(k, s) && i < |s.shards| && ShardIndex(k, c.ticket.symbol) == i
    requires c.ticket.id in s.calls && s.calls[c.ticket.id].ticket == c.ticket
    requires CallOk(s.accepting, c.ticket.id, c)
    requires ShardOk(k, s.calls[c.ticket.id := c], i, sh')
    requires s.shards[i].channel.log <= sh'.channel.log && c.ticket in sh'.channel.log
    requires sh'.channel.closed == s.shards[i].channel.closed && sh'.exited == s.shards[i].exited
    requires s'.calls == s.calls[c.ticket.id := c] && s'.shards == s.shards[i := sh']
    requires s'.accepting == s.accepting && s'.closing == s.closing && s'.joined == s.joined
    requires CountersOk(s')
    ensures Inv(k, s')
  {
    hide ShardIndex, ShardOk, CountersOk, CallOk, Logged;
    ShardsKeep(k, s, c, i, sh');
    LoggedKeeps(k, s, c, i, sh', s');
  }

  lemma {:induction false} PushKeeps(k: Config, s: System, id: nat, s': System)
    requires Inv(k, s) && WellFormed(k, s) && Step(k, s, Push(id), s')
    ensures Inv(k, s')
  {
    hide Inv, CountersOk, ShardOk, ShardIndex, Traceable, Size;
    CallTicket(k, s, id);
    var c := s.calls[id].(caller := Pushed, owner := Queued);
    var i := ShardIndex(k, c.ticket.symbol);
    var sh := s.shards[i];
    var sh' := sh.(channel := sh.channel.(log := sh.channel.log + [c.ticket]));
    ShardsSound(k, s, i);
    PushShard(k, s.calls, i, sh, id, c);
    CountsMove(k, s, id, c, s');
    OwnerStepKeeps(k, s, c, i, sh', s');
  }

  lemma {:induction false} ShardsSound(k: Config, s: System, i: nat)
    requires Inv(k, s) && i < |s.shards|
    ensures ShardOk(k, s.calls, i, s.shards[i]) && CursorOk(s.calls, s.shards[i])
  {
    hide CallOk, CountersOk, Logged, EnginesOk, ResultsOk, EntriesOk;
  }

  ghost predicate WasIn(s: System, id: nat, g: Group) { id in s.calls && In(s.calls[id], g) }

  /** The counters change by what the moved call joins and leaves. */
  lemma {:induction false} CountsMove(k: Config, s: System, id: nat, c: Call, s': System)
    requires Inv(k, s) && s'.calls == s.calls[id := c]
    requires s'.pending == s.pending - One(WasIn(s, id, InFlight)) + One(In(c, InFlight))
    requires s'.submitted == s.submitted - One(WasIn(s, id, AllSubmitted)) + One(In(c, AllSubmitted))
    requires s'.processed == s.processed - One(WasIn(s, id, AllProcessed)) + One(In(c, AllProcessed))
    requires s'.accepted == s.accepted - One(WasIn(s, id, AllAccepted)) + One(In(c, AllAccepted))
    requires s'.rejected == s.rejected - One(WasIn(s, id, AllRejected)) + One(In(c, AllRejected))
    ensures CountersOk(s')
  {
    hide ShardOk, CallOk, Logged, ShutdownOk, Size, In, One;
    RecountAll(s.calls, id, c);
  }

  /** The call behind a log entry. */
  lemma {:induction false} EntryCall(k: Config, s: System, i: nat, j: nat)
    requires Inv(k, s) && i < |s.shards| && j < |s.shards[i].channel.log|
    ensures EntryOk(k, s.calls, i, s.shards[i], j)
    ensures var t := s.shards[i].channel.log[j]; CallOk(s.accepting, t.id, s.calls[t.id])
  {
    hide CallOk, CountersOk, Logged, EnginesOk, ResultsOk, CursorOk, ShardIndex;
  }

  lemma {:induction false} PopKeeps(k: Config, s: System, i: nat, s': System)
    requires Inv(k, s) && WellFormed(k, s) && Step(k, s, Pop(i), s')
    ensures Inv(k, s')
  {
    hide Inv, CountersOk, ShardOk, ShardIndex, Traceable, Size, CursorOk;
    var sh := s.shards[i];
    ShardsSound(k, s, i);
    EntryCall(k, s, i, sh.channel.popped);
    var id := sh.channel.log[sh.channel.popped].id;
    var c := s.calls[id].(owner := Held);
    PopShard(k, s.calls, i, sh, c);
    CountsMove(k, s, id, c, s');
    OwnerStepKeeps(k, s, c, i, sh.(channel := sh.channel.(popped := sh.channel.popped + 1), busy := true), s');
  }

  /** The call and the shard after the owner's next step. */
  ghost function WorkCall(k: Config, sh: Shard, c: Call): Call
    requires c.owner.InHand()
  {
    match c.owner
    case Held =>
      var out := Engine.Apply(k.risk, EngineFor(sh.engines, c.ticket.symbol), c.ticket.command);
      c.(owner := Applied(Result(out.report, out.trades)))
    case Applied(r) => c.(owner := Processed(r))
    case Processed(r) => c.(owner := Classified(r))
    case Classified(r) => c.(owner := Resolved(r), answers := if c.mode == Submit then c.answers + [r] else c.answers)
    case Resolved(r) => c.(owner := Finished(r))
  }

  ghost function WorkShard(k: Config, sh: Shard, c: Call): Shard {
    if c.owner.Held? then
      var out := Engine.Apply(k.risk, EngineFor(sh.engines, c.ticket.symbol), c.ticket.command);
      sh.(applied := sh.applied + 1, engines := sh.engines[c.ticket.symbol := out.engine])
    else if c.owner.Resolved? then sh.(busy := false)
    else sh
  }

  lemma {:induction false} WorkShardKeeps(k: Config, calls: map<nat, Call>, i: nat, sh: Shard, c: Call)
    requires Constructed(k) && ShardOk(k, calls, i, sh) && sh.busy && Traceable(calls, sh)
    requires c == calls[sh.Hand().id] && c.ticket == sh.Hand() && c.owner.InHand()
    ensures ShardOk(k, calls[c.ticket.id := WorkCall(k, sh, c)], i, WorkShard(k, sh, c))
  {
    hide ShardOk, ShardIndex, Traceable, Engine.Apply;
    var c', sh' := WorkCall(k, sh, c), WorkShard(k, sh, c);
    if c.owner.Held? {
      ApplyShard(k, calls, i, sh, c', sh');
    } else if c.owner.Resolved? {
      FinishShard(k, calls, i, sh, c');
    } else {
      AdvanceShard(k, calls, i, sh, c');
    }
  }

  lemma {:induction false} WorkCounts(k: Config, s: System, i: nat, s': System)
    requires Inv(k, s) && WellFormed(k, s) && Step(k, s, Work(i), s')
    ensures CountersOk(s')
  {
    hide Inv, ShardOk, CountersOk, ShardIndex, Size, In, One, WorkStep, WorkCall, CallOk;
    EntryCall(k, s, i, s.shards[i].channel.popped - 1);
    var sh := s.shards[i];
    var c := s.calls[sh.Hand().id];
    WorkShape(k, s, i, c, s');
    WorkTallies(k, s, i, c, s');
    WorkGroups(k, s.accepting, sh, c);
    CountsMove(k, s, c.ticket.id, WorkCall(k, sh, c), s');
  }

  /** Which counter each of the owner's steps touches. */
  lemma {:induction false} WorkTallies(k: Config, s: System, i: nat, c: Call, s': System)
    requires i < |s.shards| && c.owner.InHand() && WorkStep(k, s, i, c, s')
    ensures s'.pending == s.pending - One(c.owner.Resolved?) && s'.submitted == s.submitted
    ensures s'.processed == s.processed + One(c.owner.Applied?)
    ensures s'.accepted == s.accepted + One(c.owner.Processed? && c.owner.result.report.Accepted())
    ensures s'.rejected == s.rejected + One(c.owner.Processed? && !c.owner.result.report.Accepted())
  {
    hide Engine.Apply, EngineFor;
  }

  /** Which group each of the owner's steps moves the call into or out of. */
  lemma {:induction false} WorkGroups(k: Config, accepting: bool, sh: Shard, c: Call)
    requires c.owner.InHand() && CallOk(accepting, c.ticket.id, c)
    ensures var c' := WorkCall(k, sh, c);
            && One(In(c', InFlight)) == One(In(c, InFlight)) - One(c.owner.Resolved?)
            && In(c', AllSubmitted) == In(c, AllSubmitted)
            && One(In(c', AllProcessed)) == One(In(c, AllProcessed)) + One(c.owner.Applied?)
            && One(In(c', AllAccepted))
               == One(In(c, AllAccepted)) + One(c.owner.Processed? && c.owner.result.report.Accepted())
            && One(In(c', AllRejected))
               == One(In(c, AllRejected)) + One(c.owner.Processed? && !c.owner.result.report.Accepted())
  {
    hide Engine.Apply, EngineFor, Answers;
  }

  lemma {:induction false} WorkShape(k: Config, s: System, i: nat, c: Call, s': System)
    requires i < |s.shards| && c.owner.InHand() && WorkStep(k, s, i, c, s')
    ensures s'.calls == s.calls[c.ticket.id := WorkCall(k, s.shards[i], c)]
    ensures s'.shards == s.shards[i := WorkShard(k, s.shards[i], c)]
    ensures s'.accepting == s.accepting && s'.closing == s.closing && s'.joined == s.joined
    ensures var sh, sh' := s.shards[i], WorkShard(k, s.shards[i], c);
            sh'.channel == sh.channel && sh'.exited == sh.exited
  {
    hide Engine.Apply;
  }

  lemma {:induction false} WorkCallOk(k: Config, accepting: bool, sh: Shard, c: Call)
    requires c.owner.InHand() && CallOk(accepting, c.ticket.id, c)
    ensures var c' := WorkCall(k, sh, c); c'.ticket == c.ticket && CallOk(accepting, c'.ticket.id, c')
  {
    hide Engine.Apply;
  }

  lemma {:induction false} WorkKeeps(k: Config, s: System, i: nat, s': System)
    requires Inv(k, s) && WellFormed(k, s) && Step(k, s, Work(i), s')
    ensures Inv(k, s')
  {
    hide Inv, CountersOk, ShardOk, ShardIndex, CursorOk, WorkStep, WorkCall, WorkShard, CallOk;
    var sh := s.shards[i];
    ShardsSound(k, s, i);
    EntryCall(k, s, i, sh.channel.popped - 1);
    var c := s.calls[sh.Hand().id];
    WorkCounts(k, s, i, s');
    WorkCallOk(k, s.accepting, sh, c);
    WorkShardKeeps(k, s.calls, i, sh, c);
    WorkShape(k, s, i, c, s');
    OwnerStepKeeps(k, s, WorkCall(k, sh, c), i, WorkShard(k, sh, c), s');
  }

  /** An owner with a command in hand can go on. */
  lemma {:induction false} WorkMoves(k: Config, s: System, i: nat) returns (s': System)
    requires Inv(k, s) && WellFormed(k, s) && i < |s.shards| && s.shards[i].busy
    ensures Step(k, s, Work(i), s')
  {
    hide Inv, ShardIndex, CallOk, WorkStep;
    EntryCall(k, s, i, s.shards[i].channel.popped - 1);
    s' := WorkGoesOn(k, s, i, s.calls[s.shards[i].Hand().id]);
  }

  lemma {:induction false} WorkGoesOn(k: Config, s: System, i: nat, c: Call) returns (s': System)
    requires i < |s.shards| && c.owner.InHand()
    ensures WorkStep(k, s, i, c, s')
  {
    hide Engine.Apply, EngineFor;
    var sh := s.shards[i];
    match c.owner
    case Held =>
      var out := Engine.Apply(k.risk, EngineFor(sh.engines, c.ticket.symbol), c.ticket.command);
      s' := Moved(s, c.(owner := Applied(Result(out.report, out.trades))))
             .(shards := s.shards[i := sh.(applied := sh.applied + 1,
                                           engines := sh.engines[c.ticket.symbol := out.engine])]);
    case Applied(r) =>
      s' := Moved(s, c.(owner := Processed(r))).(processed := s.processed + 1);
    case Processed(r) =>
      s' := Moved(s, c.(owner := Classified(r)))
             .(accepted := s.accepted + (if r.report.Accepted() then 1 else 0),
               rejected := s.rejected + (if r.report.Accepted() then 0 else 1));
    case Classified(r) =>
      s' := Moved(s, c.(owner := Resolved(r),
                        answers := if c.mode == Submit then c.answers + [r] else c.answers));
    case Resolved(r) =>
      s' := Moved(s, c.(owner := Finished(r)))
             .(pending := s.pending - 1, shards := s.shards[i := sh.(busy := false)]);
  }

  lemma {:induction false} ExitShape(k: Config, s: System, i: nat, s': System)
    requires Inv(k, s) && WellFormed(k, s) && Step(k, s, Exit(i), s')
    ensures i < |s.shards| && !s.shards[i].busy
    ensures s.shards[i].channel.closed && s.shards[i].channel.Drained()
    ensures s' == s.(shards := s.shards[i := s.shards[i].(exited := true)])
    ensures ShutdownOk(s')
  {
    hide Inv, WellFormed, ShardIndex, WorkStep;
    ShutdownHolds(k, s);
  }

  lemma {:induction false} ExitKeeps(k: Config, s: System, i: nat, s': System)
    requires Inv(k, s) && WellFormed(k, s) && Step(k, s, Exit(i), s')
    ensures Inv(k, s')
  {
    hide ShardIndex, CountersOk, CallOk, EnginesOk, ResultsOk, EntryOk, Step, WellFormed, ShutdownOk;
    ExitShape(k, s, i, s');
    var sh, sh' := s.shards[i], s'.shards[i];
    assert ShardOk(k, s.calls, i, sh);
    QuietShard(k, s.calls, i, sh, sh');
    CountersFrame(s, s');
    assert forall id :: id in s.calls && Logged(k, s, id) ==> Logged(k, s', id);
  }

  lemma {:induction false} CountersFrame(s: System, s': System)
    requires CountersOk(s) && s'.calls == s.calls && s'.pending == s.pending && s'.submitted == s.submitted
    requires s'.processed == s.processed && s'.accepted == s.accepted && s'.rejected == s.rejected
    ensures CountersOk(s')
  {
    hide Size;
  }

  /** Closing a queue or leaving the loop moves no command. */
  lemma {:induction false} QuietShard(k: Config, calls: map<nat, Call>, i: nat, sh: Shard, sh': Shard)
    requires Constructed(k) && ShardOk(k, calls, i, sh)
    requires sh'.channel.log == sh.channel.log && sh'.channel.popped == sh.channel.popped
    requires sh'.busy == sh.busy && sh'.applied == sh.applied && sh'.engines == sh.engines
    requires sh'.exited ==> sh'.channel.closed && sh'.channel.Drained() && !sh'.busy
    ensures ShardOk(k, calls, i, sh')
  {
    hide ShardIndex, ResultsOk, EnginesOk;
    forall j | 0 <= j < |sh'.channel.log|
      ensures EntryOk(k, calls, i, sh', j)
    {
      assert EntryOk(k, calls, i, sh, j);
    }
    EnginesPrefix(k.risk, sh, sh');
  }

  lemma {:induction false} CloseShape(k: Config, s: System, s': System)
    requires Inv(k, s) && WellFormed(k, s) && Step(k, s, CloseQueue, s')
    ensures s.closing < |s.shards|
    ensures var sh := s.shards[s.closing];
            s' == s.(closing := s.closing + 1,
                     shards := s.shards[s.closing := sh.(channel := sh.channel.(closed := true))])
    ensures ShutdownOk(s')
  {
    hide Inv, WellFormed, ShardIndex, WorkStep, Happens;
    ShutdownHolds(k, s);
  }

  lemma {:induction false} CloseKeeps(k: Config, s: System, s': System)
    requires Inv(k, s) && WellFormed(k, s) && Step(k, s, CloseQueue, s')
    ensures Inv(k, s')
  {
    hide ShardIndex, CountersOk, CallOk, EnginesOk, ResultsOk, EntryOk, Step, WellFormed, ShutdownOk;
    CloseShape(k, s, s');
    var i := s.closing;
    assert ShardOk(k, s.calls, i, s.shards[i]);
    QuietShard(k, s.calls, i, s.shards[i], s'.shards[i]);
    CountersFrame(s, s');
    assert forall id :: id in s.calls && Logged(k, s, id) ==> Logged(k, s', id);
  }

  /** No call, shard or counter moves, and the engine does not start to accept again. */
  ghost predicate Undisturbed(s: System, s': System) {
    && s'.calls == s.calls && s'.shards == s.shards && s'.pending == s.pending && s'.submitted == s.submitted
    && s'.processed == s.processed && s'.accepted == s.accepted && s'.rejected == s.rejected
    && (s'.accepting ==> s.accepting)
  }

  lemma {:induction false} StopKeeps(k: Config, s: System, l: Label, s': System)
    requires Inv(k, s) && WellFormed(k, s) && Step(k, s, l, s') && (l.StopAccepting? || l.Join?)
    ensures Inv(k, s')
  {
    hide Inv, WellFormed, Step, ShutdownOk, Undisturbed;
    ShutdownHolds(k, s);
    StopShape(k, s, l, s');
    UndisturbedKeeps(k, s, s');
  }

  lemma {:induction false} ShutdownHolds(k: Config, s: System)
    requires Inv(k, s)
    ensures ShutdownOk(s)
  {
    hide ShutdownOk, CallOk, ShardOk, CountersOk;
  }

  lemma {:induction false} StopShape(k: Config, s: System, l: Label, s': System)
    requires ShutdownOk(s) && WellFormed(k, s) && Step(k, s, l, s') && (l.StopAccepting? || l.Join?)
    ensures Undisturbed(s, s') && ShutdownOk(s')
  {
    hide WellFormed, ShardIndex, WorkStep, Happens;
  }

  lemma {:induction false} UndisturbedKeeps(k: Config, s: System, s': System)
    requires Inv(k, s) && Undisturbed(s, s') && ShutdownOk(s')
    ensures Inv(k, s')
  {
    hide ShardIndex, CountersOk, ShardOk, CallOk, ShutdownOk;
    CountersFrame(s, s');
    forall id | id in s.calls
      ensures CallOk(s'.accepting, id, s.calls[id])
    {
      StaysOk(s.accepting, s'.accepting, id, s.calls[id]);
    }
    assert forall id :: id in s.calls && Logged(k, s, id) ==> Logged(k, s', id);
  }

  lemma {:induction false} StaysOk(accepting: bool, accepting': bool, id: nat, c: Call)
    requires CallOk(accepting, id, c) && (accepting' ==> accepting)
    ensures CallOk(accepting', id, c)
  {
    hide Answers;
  }

  lemma {:induction false} StepKeepsInv(k: Config, s: System, l: Label, s': System)
    requires Inv(k, s) && WellFormed(k, s) && Step(k, s, l, s')
    ensures Inv(k, s')
  {
    hide Inv, WellFormed, Step;
    if CallerLabel(l) {
      CallerLabelKeeps(k, s, l, s');
    } else if l.Push? {
      PushKeeps(k, s, l.id, s');
    } else if l.Pop? {
      PopKeeps(k, s, l.shard, s');
    } else if l.Work? {
      WorkKeeps(k, s, l.shard, s');
    } else if l.Exit? {
      ExitKeeps(k, s, l.shard, s');
    } else if l.CloseQueue? {
      CloseKeeps(k, s, s');
    } else {
      StopKeeps(k, s, l, s');
    }
  }

  // ---------------------------------------------------------------------
  // Whole runs

  /** Any interleaving. States stay well formed by `AlwaysInv`, so asking for it
      here excludes nothing. */
  ghost predicate Execution(k: Config, run: seq<System>, labels: seq<Label>) {
    && |run| == |labels| + 1 && Init(k, run[0])
    && forall n :: 0 <= n < |labels| ==> WellFormed(k, run[n]) && Step(k, run[n], labels[n], run[n + 1])
  }

  lemma {:induction false} InitOk(k: Config, s: System)
    requires Init(k, s)
    ensures Inv(k, s)
  {
    hide ShardIndex;
    assert forall g :: Those(s.calls, g) == {};
  }

  lemma {:induction false} AlwaysInv(k: Config, run: seq<System>, labels: seq<Label>, n: nat)
    requires Execution(k, run, labels) && n < |run|
    ensures Inv(k, run[n]) && WellFormed(k, run[n])
  {
    hide Inv, WellFormed, Step, Init;
    if n == 0 {
      InitOk(k, run[0]);
    } else {
      AlwaysInv(k, run, labels, n - 1);
      StepKeepsInv(k, run[n - 1], labels[n - 1], run[n]);
    }
    InvIsWellFormed(k, run[n]);
  }

  ghost predicate Answered(calls: map<nat, Call>, log: seq<Ticket>) {
    forall j :: 0 <= j < |log| ==> log[j].id in calls && calls[log[j].id].owner.HasResult()
  }

  /** The reports given for one symbol, in queue order. */
  ghost function ReportsOf(calls: map<nat, Call>, log: seq<Ticket>, y: Symbol): seq<Report>
    requires Answered(calls, log)
  {
    if log == [] then []
    else
      var n := |log| - 1;
      ReportsOf(calls, log[..n], y) + (if log[n].symbol == y then [calls[log[n].id].owner.result.report] else [])
  }

  ghost function TradesOf(calls: map<nat, Call>, log: seq<Ticket>, y: Symbol): seq<Trade>
    requires Answered(calls, log)
  {
    if log == [] then []
    else
      var n := |log| - 1;
      TradesOf(calls, log[..n], y) + (if log[n].symbol == y then calls[log[n].id].owner.result.trades else [])
  }

  lemma {:induction false} HistoryIsSequential(risk: RiskConfig, calls: map<nat, Call>, log: seq<Ticket>, y: Symbol)
    requires ResultsOk(risk, calls, log, |log|)
    ensures Answered(calls, log)
    ensures ReportsOf(calls, log, y) == Engine.Reports(risk, Engine.EMPTY, CommandsOf(log, y))
    ensures TradesOf(calls, log, y) == Engine.Tape(risk, Engine.EMPTY, CommandsOf(log, y))
  {
    hide Engine.Apply, Engine.Run, ResultAt;
    forall j | 0 <= j < |log|
      ensures log[j].id in calls && calls[log[j].id].owner.HasResult()
    {
      assert ResultOk(risk, calls, log, j);
    }
    if log != [] {
      var n := |log| - 1;
      forall j | 0 <= j < n
        ensures ResultOk(risk, calls, log[..n], j)
      {
        assert ResultOk(risk, calls, log, j);
        ResultAtPrefix(risk, log[..n], log, j);
      }
      HistoryIsSequential(risk, calls, log[..n], y);
      assert ResultOk(risk, calls, log, n);
      HistoryStep(risk, calls, log, y);
    }
  }

  lemma {:induction false} HistoryStep(risk: RiskConfig, calls: map<nat, Call>, log: seq<Ticket>, y: Symbol)
    requires log != [] && ResultOk(risk, calls, log, |log| - 1) && Answered(calls, log)
    requires var n := |log| - 1;
             && ReportsOf(calls, log[..n], y) == Engine.Reports(risk, Engine.EMPTY, CommandsOf(log[..n], y))
             && TradesOf(calls, log[..n], y) == Engine.Tape(risk, Engine.EMPTY, CommandsOf(log[..n], y))
    ensures ReportsOf(calls, log, y) == Engine.Reports(risk, Engine.EMPTY, CommandsOf(log, y))
    ensures TradesOf(calls, log, y) == Engine.Tape(risk, Engine.EMPTY, CommandsOf(log, y))
  {
    hide Engine.Apply, Engine.Run;
    var n := |log| - 1;
    var before := CommandsOf(log[..n], y);
    if log[n].symbol == y {
      assert (before + [log[n].command])[..|before|] == before;
    } else {
      assert before + [] == before;
    }
  }

  lemma {:induction false} DoneResults(risk: RiskConfig, calls: map<nat, Call>, log: seq<Ticket>, n: nat)
    requires n <= |log| && ResultsOk(risk, calls, log, n)
    ensures ResultsOk(risk, calls, log[..n], n)
  {
    hide ResultAt;
    forall j | 0 <= j < n
      ensures ResultOk(risk, calls, log[..n], j)
    {
      assert ResultOk(risk, calls, log, j);
      ResultAtPrefix(risk, log[..n], log, j);
    }
  }

  lemma {:induction false} NoSuchSymbol(k: Config, calls: map<nat, Call>, i: nat, sh: Shard, n: nat, y: Symbol)
    requires Constructed(k) && ShardOk(k, calls, i, sh) && i != ShardIndex(k, y) && n <= |sh.channel.log|
    ensures CommandsOf(sh.channel.log[..n], y) == []
  {
    hide ShardIndex, EnginesOk, ResultsOk, CursorOk;
    if n > 0 {
      NoSuchSymbol(k, calls, i, sh, n - 1, y);
      assert EntryOk(k, calls, i, sh, n - 1);
      assert sh.channel.log[..n][..n - 1] == sh.channel.log[..n - 1];
    }
  }

  /** The engine, reports and trades of a symbol are those of a lone engine fed the
      symbol's commands one at a time, in the order its queue accepted them. */
  ghost predicate ActsAlone(k: Config, s: System, y: Symbol)
    requires Constructed(k) && |s.shards| == k.shards
  {
    var sh := s.shards[ShardIndex(k, y)];
    && sh.applied <= sh.channel.popped <= |sh.channel.log|
    && var done := sh.channel.log[..sh.applied];
       var commands := CommandsOf(done, y);
       && Answered(s.calls, done)
       && EngineFor(sh.engines, y) == Engine.Run(k.risk, Engine.EMPTY, commands)
       && ReportsOf(s.calls, done, y) == Engine.Reports(k.risk, Engine.EMPTY, commands)
       && TradesOf(s.calls, done, y) == Engine.Tape(k.risk, Engine.EMPTY, commands)
  }

  lemma {:induction false} ShardActsAlone(k: Config, s: System, y: Symbol)
    requires Inv(k, s)
    ensures ActsAlone(k, s, y)
  {
    hide Inv, ShardIndex, EntriesOk, CommandsOf, Engine.Run, Engine.Reports, Engine.Tape;
    InvIsWellFormed(k, s);
    var i := ShardIndex(k, y);
    var sh := s.shards[i];
    ShardsSound(k, s, i);
    DoneResults(k.risk, s.calls, sh.channel.log, sh.applied);
    HistoryIsSequential(k.risk, s.calls, sh.channel.log[..sh.applied], y);
  }

  /** The positions of a symbol's commands in a log. */
  ghost function PlacesOf(log: seq<Ticket>, y: Symbol): set<nat> {
    set j: nat | j < |log| && log[j].symbol == y
  }

  /** The commands of a symbol are all of its commands in the log, each once and in
      the order of the log: the one at `j` comes behind as many as were before it. */
  lemma {:induction false} CommandsAreAll(log: seq<Ticket>, y: Symbol, j: nat)
    requires j < |log| && log[j].symbol == y
    ensures |CommandsOf(log, y)| == |PlacesOf(log, y)|
    ensures var before := |PlacesOf(log[..j], y)|;
            before < |CommandsOf(log, y)| && CommandsOf(log, y)[before] == log[j].command
    decreases |log|
  {
    hide CommandsOf, PlacesOf;
    var n := |log| - 1;
    CommandsNumbered(log, y);
    CommandsNumbered(log[..j], y);
    CommandsSnoc(log, y);
    if j < n {
      CommandsAreAll(log[..n], y, j);
      assert log[..n][..j] == log[..j];
    }
  }

  lemma {:induction false} CommandsSnoc(log: seq<Ticket>, y: Symbol)
    requires log != []
    ensures var n := |log| - 1;
            CommandsOf(log, y) == CommandsOf(log[..n], y) + (if log[n].symbol == y then [log[n].command] else [])
  {
  }

  lemma {:induction false} CommandsNumbered(log: seq<Ticket>, y: Symbol)
    ensures |CommandsOf(log, y)| == |PlacesOf(log, y)|
  {
    if log == [] {
      assert PlacesOf(log, y) == {};
    } else {
      var n := |log| - 1;
      CommandsNumbered(log[..n], y);
      assert PlacesOf(log, y) == PlacesOf(log[..n], y) + (if log[n].symbol == y then {n} else {});
    }
  }

  /** Whatever the interleaving, each symbol acts alone, and no other queue ever
      held a command for it. */
  lemma {:induction false} SequentialPerSymbol(k: Config, run: seq<System>, labels: seq<Label>, n: nat, y: Symbol)
    requires Execution(k, run, labels) && n < |run|
    ensures WellFormed(k, run[n]) && ActsAlone(k, run[n], y)
    ensures forall i :: 0 <= i < |run[n].shards| && i != ShardIndex(k, y) ==>
              CommandsOf(run[n].shards[i].channel.log, y) == []
  {
    hide Execution, Inv, ActsAlone, ShardIndex, ShardOk, CursorOk, CommandsOf;
    AlwaysInv(k, run, labels, n);
    var s := run[n];
    ShardActsAlone(k, s, y);
    forall i | 0 <= i < |s.shards| && i != ShardIndex(k, y)
      ensures CommandsOf(s.shards[i].channel.log, y) == []
    {
      ShardsSound(k, s, i);
      NoSuchSymbol(k, s.calls, i, s.shards[i], |s.shards[i].channel.log|, y);
      assert s.shards[i].channel.log[..|s.shards[i].channel.log|] == s.shards[i].channel.log;
    }
  }

  /** What a promise is told when its command is turned away. */
  ghost predicate SaysShutdown(c: Command, r: Result) {
    && r.trades == []
    && r.report.status == Rejected && r.report.reason == EngineShuttingDown
    && r.report.requested == r.report.executed == r.report.remaining == r.report.tradeCount == 0
    && (c.NewOrder? ==> r.report.command == NewOrderCommand && r.report.orderId == c.order.id)
    && (c.Cancel? ==> r.report.command == CancelCommand && r.report.orderId == c.id)
  }

  /** At most one value was set on the promise of call `id`: the sequential engine's
      answer if the push succeeded, the shutdown rejection otherwise, and the latter
      only once the engine stopped accepting. */
  ghost predicate PromiseOk(k: Config, s: System, id: nat)
    requires Constructed(k) && |s.shards| == k.shards && id in s.calls
  {
    var c := s.calls[id];
    var log := s.shards[ShardIndex(k, c.ticket.symbol)].channel.log;
    && |c.answers| <= 1
    && (c.mode != Submit ==> c.answers == [])
    && (c.mode == Submit && c.caller == Returned(false) ==>
          |c.answers| == 1 && SaysShutdown(c.ticket.command, c.answers[0]) && !s.accepting)
    && (c.mode == Submit && c.owner.Finished? ==> |c.answers| == 1)
    && (!c.owner.Absent? && c.answers != [] ==>
          exists j :: 0 <= j < |log| && log[j] == c.ticket && c.answers[0] == ResultAt(k.risk, log, j))
  }

  lemma {:induction false} PromiseNow(k: Config, s: System, id: nat)
    requires Inv(k, s) && id in s.calls
    ensures WellFormed(k, s) && PromiseOk(k, s, id)
  {
    hide Inv, ShardIndex, ResultAt;
    CallTicket(k, s, id);
    InvIsWellFormed(k, s);
    if !s.calls[id].owner.Absent? && s.calls[id].answers != [] {
      AnswerIsSequential(k, s, id);
    }
  }

  lemma {:induction false} PromiseSetOnce(k: Config, run: seq<System>, labels: seq<Label>, n: nat, id: nat)
    requires Execution(k, run, labels) && n < |run| && id in run[n].calls
    ensures WellFormed(k, run[n]) && PromiseOk(k, run[n], id)
  {
    hide Execution, Inv, PromiseOk;
    AlwaysInv(k, run, labels, n);
    PromiseNow(k, run[n], id);
  }

  /** A call returns true exactly if its command is in the queue of its symbol's shard. */
  lemma {:induction false} ReturnTells(k: Config, run: seq<System>, labels: seq<Label>, n: nat, id: nat)
    requires Execution(k, run, labels) && n < |run| && id in run[n].calls && run[n].calls[id].caller.Returned?
    ensures WellFormed(k, run[n])
    ensures run[n].calls[id].caller.ok <==> Logged(k, run[n], id)
  {
    hide Execution, Inv, WellFormed, Step;
    AlwaysInv(k, run, labels, n);
    LoggedIsOwned(k, run[n], id);
  }

  lemma {:induction false} LoggedIsOwned(k: Config, s: System, id: nat)
    requires Inv(k, s) && id in s.calls
    ensures Logged(k, s, id) <==> !s.calls[id].owner.Absent?
    ensures s.calls[id].caller.Returned? ==> (s.calls[id].caller.ok <==> !s.calls[id].owner.Absent?)
  {
    hide CountersOk, EnginesOk, ResultsOk, ShutdownOk;
    CallTicket(k, s, id);
    assert CallOk(s.accepting, id, s.calls[id]);
    if Logged(k, s, id) {
      var t := s.calls[id].ticket;
      var i := ShardIndex(k, t.symbol);
      var j :| 0 <= j < |s.shards[i].channel.log| && s.shards[i].channel.log[j] == t;
      assert ShardOk(k, s.calls, i, s.shards[i]);
      assert EntryOk(k, s.calls, i, s.shards[i], j);
    }
  }

  /** A call is turned away only by shutdown, or, if it does not wait, by a full queue. */
  lemma {:induction false} RefusalJustified(k: Config, run: seq<System>, labels: seq<Label>, n: nat)
    requires Execution(k, run, labels) && n < |labels|
    ensures WellFormed(k, run[n])
    ensures var s, l := run[n], labels[n];
            && (l.Begin? && run[n + 1].calls[l.id].caller != Entered ==> !s.accepting)
            && (l.Refuse? ==>
                  && l.id in s.calls
                  && var c := s.calls[l.id];
                     !s.accepting || (c.mode == TryEnqueue && s.shards[ShardIndex(k, c.ticket.symbol)].channel.Full()))
  {
    hide Execution, Inv, WellFormed, Step;
    StepOf(k, run, labels, n);
    AlwaysInv(k, run, labels, n);
    RefusalNow(k, run[n], labels[n], run[n + 1]);
  }

  lemma {:induction false} StepOf(k: Config, run: seq<System>, labels: seq<Label>, n: nat)
    requires Execution(k, run, labels) && n < |labels|
    ensures |run| == |labels| + 1 && WellFormed(k, run[n]) && Step(k, run[n], labels[n], run[n + 1])
  {
    hide WellFormed, Step;
  }

  lemma {:induction false} RefusalNow(k: Config, s: System, l: Label, s': System)
    requires Inv(k, s) && WellFormed(k, s) && Step(k, s, l, s')
    ensures l.Begin? ==> l.id in s'.calls && (s'.calls[l.id].caller != Entered ==> !s.accepting)
    ensures l.Refuse? ==> l.id in s.calls
    ensures l.Refuse? ==>
              var c := s.calls[l.id];
              !s.accepting || (c.mode == TryEnqueue && s.shards[ShardIndex(k, c.ticket.symbol)].channel.Full())
  {
    hide Inv, WorkStep, ShardIndex;
    ShutdownHolds(k, s);
  }

  /** A command with a result has the one its place in the log calls for. */
  lemma {:induction false} AnswerIsSequential(k: Config, s: System, id: nat)
    requires Inv(k, s) && id in s.calls && s.calls[id].owner.HasResult()
    ensures var c := s.calls[id];
            var log := s.shards[ShardIndex(k, c.ticket.symbol)].channel.log;
            exists j :: 0 <= j < |log| && log[j] == c.ticket && c.owner.result == ResultAt(k.risk, log, j)
  {
    hide CountersOk, ResultAt, EnginesOk, CallOk, ShutdownOk;
    var c := s.calls[id];
    CallTicket(k, s, id);
    assert Logged(k, s, id);
    var i := ShardIndex(k, c.ticket.symbol);
    var sh := s.shards[i];
    var j :| 0 <= j < |sh.channel.log| && sh.channel.log[j] == c.ticket;
    assert ShardOk(k, s.calls, i, sh);
    assert EntryOk(k, s.calls, i, sh, j);
    assert ResultOk(k.risk, s.calls, sh.channel.log, j);
  }

  /** Every command that any queue accepted has been fully processed. */
  ghost predicate AllDone(s: System) {
    forall id :: id in s.calls ==>
      && (s.calls[id].owner.Absent? || s.calls[id].owner.Finished?)
      && (s.calls[id].caller == Returned(true) ==> s.calls[id].owner.Finished?)
  }

  lemma {:induction false} ZeroMeansDone(k: Config, s: System)
    requires Inv(k, s) && s.pending == 0
    ensures AllDone(s)
  {
    hide ShardOk, Logged;
    forall id | id in s.calls
      ensures !In(s.calls[id], InFlight)
    {
      assert id !in Those(s.calls, InFlight);
    }
    assert forall id :: id in s.calls ==> CallOk(s.accepting, id, s.calls[id]);
  }

  /** The pending count is exact, so it never underflows, and when it reads zero
      every command that any queue accepted has been fully processed. */
  lemma {:induction false} IdleMeansDone(k: Config, run: seq<System>, labels: seq<Label>, n: nat)
    requires Execution(k, run, labels) && n < |run|
    ensures run[n].pending == Size(run[n].calls, InFlight) >= 0
    ensures run[n].pending == 0 ==> AllDone(run[n])
  {
    hide Execution, AllDone, ShardOk, Logged;
    AlwaysInv(k, run, labels, n);
    if run[n].pending == 0 {
      ZeroMeansDone(k, run[n]);
    }
  }

  /** No caller inside an ingress call and no command in flight. */
  ghost predicate Quiescent(s: System) {
    forall id :: id in s.calls ==>
      s.calls[id].caller.Returned? && (s.calls[id].owner.Absent? || s.calls[id].owner.Finished?)
  }

  /** Nothing is pending and the statistics add up. */
  ghost predicate StatisticsAgree(s: System) {
    s.pending == 0 && s.submitted == s.processed == s.accepted + s.rejected
  }

  lemma {:induction false} QuiescentNow(k: Config, s: System)
    requires Inv(k, s) && Quiescent(s)
    ensures StatisticsAgree(s)
  {
    hide Inv, Quiescent;
    QuiescentGroups(k, s);
    CountsExact(k, s);
    assert Those(s.calls, AllProcessed) == Those(s.calls, AllAccepted) + Those(s.calls, AllRejected);
  }

  /** At rest the statistics add up. Before that they need not, since submitted_ is
      raised after the push. */
  lemma {:induction false} QuiescentCounters(k: Config, run: seq<System>, labels: seq<Label>, n: nat)
    requires Execution(k, run, labels) && n < |run| && Quiescent(run[n])
    ensures StatisticsAgree(run[n])
  {
    hide Execution, Inv, Quiescent, StatisticsAgree;
    AlwaysInv(k, run, labels, n);
    QuiescentNow(k, run[n]);
  }

  lemma {:induction false} CountsExact(k: Config, s: System)
    requires Inv(k, s)
    ensures CountersOk(s)
  {
  }

  lemma {:induction false} QuiescentGroups(k: Config, s: System)
    requires Inv(k, s) && Quiescent(s)
    ensures Those(s.calls, InFlight) == {}
    ensures Those(s.calls, AllSubmitted) == Those(s.calls, AllProcessed)
    ensures Those(s.calls, AllProcessed) == Those(s.calls, AllAccepted) + Those(s.calls, AllRejected)
    ensures Those(s.calls, AllAccepted) !! Those(s.calls, AllRejected)
  {
    hide Inv;
    forall id | id in s.calls
      ensures var c := s.calls[id];
              && !In(c, InFlight) && (In(c, AllSubmitted) <==> In(c, AllProcessed))
              && (In(c, AllProcessed) <==> In(c, AllAccepted) || In(c, AllRejected))
    {
      CallTicket(k, s, id);
    }
  }

  /** The engine no longer accepts, every accepted command was processed, and every
      returned future is set. */
  ghost predicate ShutDown(s: System) {
    && !s.accepting
    && forall id :: id in s.calls ==>
         && (s.calls[id].owner.Absent? || s.calls[id].owner.Finished?)
         && (s.calls[id].mode == Submit && s.calls[id].caller.Returned? ==> |s.calls[id].answers| == 1)
  }

  lemma {:induction false} JoinedCall(k: Config, s: System, id: nat)
    requires Inv(k, s) && s.joined == |s.shards| && id in s.calls
    ensures s.calls[id].owner.Absent? || s.calls[id].owner.Finished?
    ensures s.calls[id].mode == Submit && s.calls[id].caller.Returned? ==> |s.calls[id].answers| == 1
    ensures !s.accepting
  {
    hide CountersOk, EnginesOk, ResultsOk;
    var c := s.calls[id];
    var i := ShardIndex(k, c.ticket.symbol);
    assert CallOk(s.accepting, id, c);
    assert s.shards[i].exited;
    assert ShardOk(k, s.calls, i, s.shards[i]);
    if !c.owner.Absent? {
      assert Logged(k, s, id);
      var j :| 0 <= j < |s.shards[i].channel.log| && s.shards[i].channel.log[j] == c.ticket;
      assert EntryOk(k, s.calls, i, s.shards[i], j);
    }
  }

  lemma {:induction false} JoinedNow(k: Config, s: System)
    requires Inv(k, s) && s.joined == |s.shards|
    ensures ShutDown(s)
  {
    hide Inv;
    ShutdownNow(k, s);
    forall id | id in s.calls
      ensures s.calls[id].owner.Absent? || s.calls[id].owner.Finished?
      ensures s.calls[id].mode == Submit && s.calls[id].caller.Returned? ==> |s.calls[id].answers| == 1
    {
      JoinedCall(k, s, id);
    }
  }

  lemma {:induction false} ShutdownNow(k: Config, s: System)
    requires Inv(k, s)
    ensures ShutdownOk(s) && |s.shards| > 0
  {
    hide ShardOk, CallOk, Logged, CountersOk;
  }

  /** Once shutdown has joined every worker, every accepted command was processed. */
  lemma {:induction false} ShutdownDrains(k: Config, run: seq<System>, labels: seq<Label>, n: nat)
    requires Execution(k, run, labels) && n < |run| && run[n].joined == |run[n].shards|
    ensures ShutDown(run[n])
  {
    hide Execution, Inv, ShutDown;
    AlwaysInv(k, run, labels, n);
    JoinedNow(k, run[n]);
  }

  lemma {:induction false} StepGrows(k: Config, s: System, l: Label, s': System, i: nat)
    requires WellFormed(k, s) && Step(k, s, l, s') && i < |s.shards|
    ensures |s'.shards| == |s.shards| && s.shards[i].channel.log <= s'.shards[i].channel.log
  {
    hide ShardIndex, Engine.Apply, Happens, WorkStep, GiveUp;
    if l.Work? {
      WorkKeepsLogs(k, s, l.shard, s.calls[s.shards[l.shard].Hand().id], s', i);
    }
  }

  lemma {:induction false} WorkKeepsLogs(k: Config, s: System, i: nat, c: Call, s': System, m: nat)
    requires i < |s.shards| && WorkStep(k, s, i, c, s') && m < |s.shards|
    ensures |s'.shards| == |s.shards| && s'.shards[m].channel == s.shards[m].channel
  {
    hide Engine.Apply, EngineFor;
  }

  lemma {:induction false} LogsGrow(k: Config, run: seq<System>, labels: seq<Label>, m: nat, n: nat, i: nat)
    requires Execution(k, run, labels) && m <= n < |run| && i < |run[m].shards|
    ensures |run[n].shards| == |run[m].shards| && run[m].shards[i].channel.log <= run[n].shards[i].channel.log
  {
    hide WellFormed, Step, Init;
    if m < n {
      LogsGrow(k, run, labels, m, n - 1, i);
      StepGrows(k, run[n - 1], labels[n - 1], run[n], i);
    }
  }

  /** In the log that `s'` keeps for its symbol, the ticket that `a` has in `s` is
      ahead of every ticket of `b`. */
  ghost predicate Ahead(k: Config, s: System, s': System, a: nat, b: nat)
    requires Constructed(k) && |s'.shards| == k.shards && a in s.calls
  {
    var log := s'.shards[ShardIndex(k, s.calls[a].ticket.symbol)].channel.log;
    && s.calls[a].ticket in log
    && forall p, q :: 0 <= p < |log| && 0 <= q < |log| && log[p] == s.calls[a].ticket && log[q].id == b ==> p < q
  }

  lemma {:induction false} AheadLater(k: Config, s: System, s': System, a: nat, b: nat)
    requires Inv(k, s) && Inv(k, s') && a in s.calls && s.calls[a].caller == Returned(true) && b !in s.calls
    requires var i := ShardIndex(k, s.calls[a].ticket.symbol); s.shards[i].channel.log <= s'.shards[i].channel.log
    ensures Ahead(k, s, s', a, b)
  {
    hide CountersOk, EnginesOk, ResultsOk, ShardIndex, ShutdownOk;
    var i := ShardIndex(k, s.calls[a].ticket.symbol);
    var log, log' := s.shards[i].channel.log, s'.shards[i].channel.log;
    CallTicket(k, s, a);
    assert Logged(k, s, a);
    var j :| 0 <= j < |log| && log[j] == s.calls[a].ticket;
    assert log'[j] == log[j];
    ShardsSound(k, s', i);
    ShardsSound(k, s, i);
    NotInLog(k, s.calls, i, s.shards[i], b);
    assert forall q :: 0 <= q < |log| ==> log'[q] == log[q] && log'[q].id != b;
    forall p, q | 0 <= p < |log'| && 0 <= q < |log'| && log'[p] == s.calls[a].ticket && log'[q].id == b
      ensures p < q
    {
      assert log'[j].id == log'[p].id;
    }
  }

  /** A call that returned true before another call for the same symbol began is
      ahead of it in the queue, for good. */
  lemma {:induction false} ProgramOrder(k: Config, run: seq<System>, labels: seq<Label>, m: nat, n: nat, a: nat, b: nat)
    requires Execution(k, run, labels) && m <= n < |run|
    requires a in run[m].calls && run[m].calls[a].caller == Returned(true) && b !in run[m].calls
    ensures WellFormed(k, run[n]) && Ahead(k, run[m], run[n], a, b)
  {
    hide Execution, Inv, Ahead, ShardIndex, Traceable;
    AlwaysInv(k, run, labels, m);
    AlwaysInv(k, run, labels, n);
    LogsGrow(k, run, labels, m, n, ShardIndex(k, run[m].calls[a].ticket.symbol));
    AheadLater(k, run[m], run[n], a, b);
  }

  lemma {:induction false} DrainedCall(k: Config, s: System, id: nat)
    requires Inv(k, s) && id in s.calls
    requires var sh := s.shards[ShardIndex(k, s.calls[id].ticket.symbol)]; sh.channel.Drained() && !sh.busy
    ensures s.calls[id].owner.Absent? || s.calls[id].owner.Finished?
  {
    hide CountersOk, EnginesOk, ResultsOk, ShardIndex, ShutdownOk;
    if !s.calls[id].owner.Absent? {
      assert CallOk(s.accepting, id, s.calls[id]);
      assert Logged(k, s, id);
      var i := ShardIndex(k, s.calls[id].ticket.symbol);
      var j :| 0 <= j < |s.shards[i].channel.log| && s.shards[i].channel.log[j] == s.calls[id].ticket;
      EntryCall(k, s, i, j);
    }
  }

  lemma {:induction false} NothingInFlight(k: Config, s: System)
    requires Inv(k, s) && forall id :: id in s.calls ==> !In(s.calls[id], InFlight)
    ensures s.pending == 0 && AllDone(s)
  {
    hide Inv, AllDone, In;
    CountsExact(k, s);
    assert Those(s.calls, InFlight) == {};
    ZeroMeansDone(k, s);
  }
}
