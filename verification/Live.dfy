/** The live process and its viewer: pop a command, journal it, apply it, publish
    its trades and its report, repeat; while a viewer drains both queues and
    leaves once the engine says it is done.

    The queues are histories without bound here; `LiveRings` puts the real rings in
    their place. */
module Live {
  import opened Types
  import opened Risk
  import opened Crc32
  import opened Codec
  import opened Journal
  import opened JournalLaws
  import opened EngineLaws
  import Engine

  /** `start` is the journal file at startup, whole and already replayed, and
      `records` its length. Without recovery it is empty. */
  datatype Session = Session(risk: RiskConfig, journaling: bool, start: seq<byte>, records: nat)

  datatype Phase =
    | Polling
    | Writing(command: Command, written: nat)  // `written` bytes of the record are in the file
    | Written(command: Command)                // the record is complete, perhaps to be synced
    | Applying(command: Command)
    | Publishing(trades: seq<Trade>, report: Report)
    | Stopped                                  // left the loop
    | Done                                     // stored engine_done

  datatype Viewer = Trades(any: bool) | Reports(any: bool) | AskDone | AskTrades | AskReports | Exited

  /** `logged` and `applied` list the commands journaled and applied since startup,
      `torn` the bytes of an unfinished record. `tradeQueue` and `reportQueue` hold
      everything ever published, `seenTrades` and `seenReports` what the viewer
      took, and the views are the queue lengths it last observed. */
  datatype State = State(phase: Phase, file: seq<byte>, nextOrdinal: u64, engine: Engine.Engine,
                         logged: seq<Command>, torn: seq<byte>, applied: seq<Command>,
                         tradeQueue: seq<Trade>, reportQueue: seq<Report>, done: bool,
                         viewer: Viewer, tradeView: nat, reportView: nat,
                         seenTrades: seq<Trade>, seenReports: seq<Report>)

  datatype Label =
    | Poll(command: Command) | Write(bytes: nat) | WriteFails | Synced | SyncFails | Apply
    | PublishTrade | PublishReport | Stop | SetDone
    | TakeTrade(head: nat) | TakeReport(head: nat) | LoadDone(flag: bool)
    | TradesEmpty(head: nat) | ReportsEmpty(head: nat)
    | SeeTrades(head: nat) | SeeReports(head: nat)

  ghost predicate EngineStep(k: Session, s: State, l: Label, s': State) {
    match l
    case Poll(c) =>
      s.phase.Polling? && s' == s.(phase := if k.journaling then Writing(c, 0) else Applying(c))
    case Write(n) =>
      && s.phase.Writing? && s.phase.written + n <= RECORD_SIZE
      && var record := Encode(s.nextOrdinal, s.phase.command);
         var now := s.phase.written + n;
         && var file' := s.file + record[s.phase.written..now];
         if now < RECORD_SIZE then
           s' == s.(phase := Writing(s.phase.command, now), file := file', torn := record[..now])
         else
           s' == s.(phase := Written(s.phase.command), file := file', torn := [],
                    logged := s.logged + [s.phase.command], nextOrdinal := (s.nextOrdinal + 1) % WORD)
    case WriteFails => s.phase.Writing? && s' == s.(phase := Stopped)
    case Synced => s.phase.Written? && s' == s.(phase := Applying(s.phase.command))
    case SyncFails => s.phase.Written? && s' == s.(phase := Stopped)
    case Apply =>
      && s.phase.Applying?
      && var out := Engine.Apply(k.risk, s.engine, s.phase.command);
         s' == s.(phase := Publishing(out.trades, out.report), engine := out.engine,
                  applied := s.applied + [s.phase.command])
    case PublishTrade =>
      && s.phase.Publishing? && s.phase.trades != []
      && s' == s.(phase := Publishing(s.phase.trades[1..], s.phase.report),
                  tradeQueue := s.tradeQueue + [s.phase.trades[0]])
    case PublishReport =>
      && s.phase.Publishing? && s.phase.trades == []
      && s' == s.(phase := Polling, reportQueue := s.reportQueue + [s.phase.report])
    case Stop => s.phase.Polling? && s' == s.(phase := Stopped)
    case SetDone => s.phase.Stopped? && s' == s.(phase := Done, done := true)
    case _ => false
  }

  /** The viewer reads queue heads that may be old, never older than before. A
      true engine_done makes everything published before it visible. */
  ghost predicate ViewerStep(s: State, l: Label, s': State) {
    match l
    case TakeTrade(head) =>
      && s.viewer.Trades? && s.tradeView <= head <= |s.tradeQueue|
      && if head == |s.seenTrades| then s' == s.(viewer := Reports(s.viewer.any), tradeView := head)
         else && |s.seenTrades| < |s.tradeQueue|
              && s' == s.(viewer := Trades(true), tradeView := head,
                          seenTrades := s.seenTrades + [s.tradeQueue[|s.seenTrades|]])
    case TakeReport(head) =>
      && s.viewer.Reports? && s.reportView <= head <= |s.reportQueue|
      && if head == |s.seenReports| then
           s' == s.(viewer := if s.viewer.any then Trades(false) else AskDone, reportView := head)
         else && |s.seenReports| < |s.reportQueue|
              && s' == s.(viewer := Reports(true), reportView := head,
                          seenReports := s.seenReports + [s.reportQueue[|s.seenReports|]])
    case SeeTrades(head) => s.tradeView <= head <= |s.tradeQueue| && s' == s.(tradeView := head)
    case SeeReports(head) => s.reportView <= head <= |s.reportQueue| && s' == s.(reportView := head)
    case LoadDone(flag) =>
      && s.viewer.AskDone? && (flag ==> s.done)
      && s' == if flag then s.(viewer := AskTrades, tradeView := |s.tradeQueue|, reportView := |s.reportQueue|)
               else s.(viewer := Trades(false))
    case TradesEmpty(head) =>
      && s.viewer.AskTrades? && s.tradeView <= head <= |s.tradeQueue|
      && s' == s.(viewer := if head == |s.seenTrades| then AskReports else Trades(false), tradeView := head)
    case ReportsEmpty(head) =>
      && s.viewer.AskReports? && s.reportView <= head <= |s.reportQueue|
      && s' == s.(viewer := if head == |s.seenReports| then Exited else Trades(false), reportView := head)
    case _ => false
  }

  ghost predicate Step(k: Session, s: State, l: Label, s': State) {
    EngineStep(k, s, l, s') || ViewerStep(s, l, s')
  }

  /** The engine at startup: the journal, replayed. */
  function Recovered(k: Session): Engine.Engine
    requires RECORD_SIZE * k.records <= |k.start|
  {
    Engine.Run(k.risk, Engine.EMPTY, Commands(k.start, k.records))
  }

  ghost predicate Init(k: Session, s: State) {
    && WholeFile(k.start, k.records)
    && s == State(Polling, k.start, Ordinal(k.records), Recovered(k), [], [], [], [], [], false,
                  Trades(false), 0, 0, [], [])
  }

  // ---------------------------------------------------------------------
  // What is in the file

  /** The startup journal with `commands` appended. */
  function Extended(k: Session, commands: seq<Command>): seq<byte> {
    if commands == [] then k.start
    else
      var n := |commands| - 1;
      Extended(k, commands[..n]) + Encode(Ordinal(k.records + n), commands[n])
  }

  lemma {:induction false} ExtendedWhole(k: Session, commands: seq<Command>)
    requires WholeFile(k.start, k.records)
    ensures WholeFile(Extended(k, commands), k.records + |commands|)
    ensures Commands(Extended(k, commands), k.records + |commands|)
         == Commands(k.start, k.records) + UnsequencedAll(commands)
  {
    hide Encode, WholeFile, Commands, UnsequencedAll, Extended;
    FileSize(k.start, k.records);
    if commands == [] {
      NoneUnsequenced();
      NoneExtended(k);
      assert Commands(k.start, k.records) + [] == Commands(k.start, k.records);
    } else {
      var n := |commands| - 1;
      var c0 := Commands(k.start, k.records);
      ExtendedWhole(k, commands[..n]);
      LastExtended(k, commands, n);
      AppendExtends(Extended(k, commands[..n]), k.records + n, commands[n]);
      UnsequencedSnoc(commands, n);
      assert c0 + UnsequencedAll(commands[..n]) + [Unsequenced(commands[n])]
          == c0 + (UnsequencedAll(commands[..n]) + [Unsequenced(commands[n])]);
    }
  }

  lemma {:induction false} NoneExtended(k: Session)
    ensures Extended(k, []) == k.start
  {
  }

  lemma {:induction false} LastExtended(k: Session, commands: seq<Command>, n: nat)
    requires |commands| == n + 1
    ensures Extended(k, commands) == Extended(k, commands[..n]) + Encode(Ordinal(k.records + n), commands[n])
  {
    hide Encode;
  }

  lemma {:induction false} NoneUnsequenced()
    ensures UnsequencedAll([]) == []
  {
  }

  lemma {:induction false} FileSize(file: seq<byte>, n: nat)
    requires WholeFile(file, n)
    ensures |file| == RECORD_SIZE * n
  {
  }

  // ---------------------------------------------------------------------
  // The invariant

  /** Every applied command is journaled, and at most the one in hand is ahead. */
  ghost predicate WriteAhead(k: Session, s: State) {
    if !k.journaling then
      && s.file == k.start && s.logged == [] && s.torn == []
      && !s.phase.Writing? && !s.phase.Written?
    else
      && s.file == Extended(k, s.logged) + s.torn && |s.torn| < RECORD_SIZE
      && s.nextOrdinal == Ordinal(k.records + |s.logged|)
      && match s.phase
         case Polling | Publishing(_, _) => s.logged == s.applied && s.torn == []
         case Writing(c, n) =>
           s.logged == s.applied && n < RECORD_SIZE && s.torn == Encode(s.nextOrdinal, c)[..n]
         case Written(c) => s.logged == s.applied + [c] && s.torn == []
         case Applying(c) => s.logged == s.applied + [c] && s.torn == []
         case Stopped | Done => s.logged == s.applied || (s.logged != [] && s.logged[..|s.logged| - 1] == s.applied)
  }

  /** What is published, and what is still to be, is what the applied commands
      produced. */
  ghost predicate Published(k: Session, s: State)
    requires RECORD_SIZE * k.records <= |k.start|
  {
    var e := Recovered(k);
    && s.engine == Engine.Run(k.risk, e, s.applied)
    && Engine.Tape(k.risk, e, s.applied) == s.tradeQueue + (if s.phase.Publishing? then s.phase.trades else [])
    && Engine.Reports(k.risk, e, s.applied) == s.reportQueue + (if s.phase.Publishing? then [s.phase.report] else [])
    && (s.done <==> s.phase.Done?)
  }

  ghost predicate ViewOk(s: State) {
    && |s.seenTrades| <= s.tradeView <= |s.tradeQueue| && s.seenTrades <= s.tradeQueue
    && |s.seenReports| <= s.reportView <= |s.reportQueue| && s.seenReports <= s.reportQueue
    && (s.viewer.AskTrades? || s.viewer.AskReports? || s.viewer.Exited? ==>
          s.done && s.tradeView == |s.tradeQueue| && s.reportView == |s.reportQueue|)
    && (s.viewer.AskReports? || s.viewer.Exited? ==> s.seenTrades == s.tradeQueue)
    && (s.viewer.Exited? ==> s.seenReports == s.reportQueue)
  }

  ghost predicate Inv(k: Session, s: State) {
    WholeFile(k.start, k.records) && WriteAhead(k, s) && Published(k, s) && ViewOk(s)
  }

  lemma {:induction false} FileGrows(base: seq<byte>, record: seq<byte>, w: nat, n: nat)
    requires w + n <= |record|
    ensures base + record[..w] + record[w..w + n] == base + record[..w + n]
    ensures w + n == |record| ==> record[..w + n] == record
  {
    assert record[..w] + record[w..w + n] == record[..w + n];
  }

  lemma {:induction false} ExtendedSnoc(k: Session, commands: seq<Command>, c: Command)
    ensures Extended(k, commands + [c]) == Extended(k, commands) + Encode(Ordinal(k.records + |commands|), c)
  {
    hide Encode;
    assert (commands + [c])[..|commands|] == commands;
  }

  lemma {:induction false} WriteKeeps(k: Session, s: State, n: nat, s': State)
    requires WriteAhead(k, s) && s.phase.Writing? && EngineStep(k, s, Write(n), s')
    ensures WriteAhead(k, s')
  {
    hide Encode, Extended, Ordinal;
    var c, w := s.phase.command, s.phase.written;
    FileGrows(Extended(k, s.logged), Encode(s.nextOrdinal, c), w, n);
    if w + n == RECORD_SIZE {
      ExtendedSnoc(k, s.logged, c);
      OrdinalNext(k.records + |s.logged|);
      NothingTorn(Extended(k, s'.logged));
    }
  }

  lemma {:induction false} NothingTorn(file: seq<byte>)
    ensures file + [] == file
  {
  }

  lemma {:induction false} JournalKeeps(k: Session, s: State, l: Label, s': State)
    requires WriteAhead(k, s) && EngineStep(k, s, l, s')
    ensures WriteAhead(k, s')
  {
    hide WriteAhead, EngineStep;
    if l.Write? {
      IsWriting(k, s, l.bytes, s');
      WriteKeeps(k, s, l.bytes, s');
    } else if l.SyncFails? {
      SyncFailsKeeps(k, s, s');
    } else {
      FileUntouched(k, s, l, s');
    }
  }

  lemma {:induction false} IsWriting(k: Session, s: State, n: nat, s': State)
    requires EngineStep(k, s, Write(n), s')
    ensures s.phase.Writing?
  {
    hide Encode;
  }

  lemma {:induction false} SyncFailsKeeps(k: Session, s: State, s': State)
    requires WriteAhead(k, s) && EngineStep(k, s, SyncFails, s')
    ensures WriteAhead(k, s')
  {
    hide Encode, Extended, Engine.Apply;
    assert k.journaling ==> (s.applied + [s.phase.command])[..|s.applied|] == s.applied;
  }

  lemma {:induction false} FileUntouched(k: Session, s: State, l: Label, s': State)
    requires WriteAhead(k, s) && EngineStep(k, s, l, s') && !l.Write? && !l.SyncFails?
    ensures WriteAhead(k, s')
  {
    hide Encode, Extended, Engine.Apply;
  }

  lemma {:induction false} ApplyPublishes(k: Session, s: State, s': State)
    requires RECORD_SIZE * k.records <= |k.start| && Published(k, s) && EngineStep(k, s, Label.Apply, s')
    ensures Published(k, s')
  {
    hide Engine.Apply, Recovered;
    var e, c := Recovered(k), s.phase.command;
    assert (s.applied + [c])[..|s.applied|] == s.applied;
    TapeSnoc(k.risk, e, s.applied, c);
    assert s.tradeQueue + [] == s.tradeQueue && s.reportQueue + [] == s.reportQueue;
  }

  lemma {:induction false} PublishKeeps(k: Session, s: State, l: Label, s': State)
    requires RECORD_SIZE * k.records <= |k.start| && Published(k, s) && EngineStep(k, s, l, s')
    ensures Published(k, s')
  {
    hide Engine.Apply, Engine.Run, Engine.Tape, Engine.Reports, Recovered, Encode;
    if l.Apply? {
      ApplyPublishes(k, s, s');
    } else if l.PublishTrade? {
      assert s.tradeQueue + s.phase.trades == s.tradeQueue + [s.phase.trades[0]] + s.phase.trades[1..];
    } else if l.PublishReport? {
      assert s.tradeQueue + [] == s.tradeQueue;
      assert s.reportQueue + [s.phase.report] + [] == s.reportQueue + [s.phase.report];
    }
  }

  lemma {:induction false} DoneIsPhase(k: Session, s: State)
    requires RECORD_SIZE * k.records <= |k.start| && Published(k, s)
    ensures s.done <==> s.phase.Done?
  {
  }

  lemma {:induction false} EngineKeepsViews(k: Session, s: State, l: Label, s': State)
    requires ViewOk(s) && (s.done <==> s.phase.Done?) && EngineStep(k, s, l, s')
    ensures ViewOk(s')
  {
    hide Engine.Apply, Encode;
  }

  /** The viewer writes nothing the engine reads. */
  lemma {:induction false} ViewerFrame(s: State, l: Label, s': State)
    requires ViewerStep(s, l, s')
    ensures s' == s.(viewer := s'.viewer, tradeView := s'.tradeView, reportView := s'.reportView,
                     seenTrades := s'.seenTrades, seenReports := s'.seenReports)
  {
  }

  lemma {:induction false} ViewerKeepsEngine(k: Session, s: State, s': State)
    requires RECORD_SIZE * k.records <= |k.start| && WriteAhead(k, s) && Published(k, s)
    requires s' == s.(viewer := s'.viewer, tradeView := s'.tradeView, reportView := s'.reportView,
                      seenTrades := s'.seenTrades, seenReports := s'.seenReports)
    ensures WriteAhead(k, s') && Published(k, s')
  {
    hide Extended, Encode, Engine.Run, Engine.Tape, Engine.Reports, Recovered;
  }

  lemma {:induction false} Takes<T>(queue: seq<T>, seen: seq<T>)
    requires seen <= queue
    ensures |seen| < |queue| ==> seen + [queue[|seen|]] <= queue
    ensures |seen| == |queue| ==> seen == queue
  {
  }

  lemma {:induction false} ViewerKeepsView(s: State, l: Label, s': State)
    requires ViewOk(s) && ViewerStep(s, l, s')
    ensures ViewOk(s')
  {
    Takes(s.tradeQueue, s.seenTrades);
    Takes(s.reportQueue, s.seenReports);
  }

  lemma {:induction false} StepKeepsInv(k: Session, s: State, l: Label, s': State)
    requires Inv(k, s) && Step(k, s, l, s')
    ensures Inv(k, s')
  {
    hide EngineStep, ViewerStep, WriteAhead, Published, ViewOk, ValidPrefix;
    if EngineStep(k, s, l, s') {
      JournalKeeps(k, s, l, s');
      PublishKeeps(k, s, l, s');
      DoneIsPhase(k, s);
      EngineKeepsViews(k, s, l, s');
    } else {
      ViewerFrame(s, l, s');
      ViewerKeepsEngine(k, s, s');
      ViewerKeepsView(s, l, s');
    }
  }

  // ---------------------------------------------------------------------
  // Whole runs

  ghost predicate Execution(k: Session, run: seq<State>, labels: seq<Label>) {
    && |run| == |labels| + 1 && Init(k, run[0])
    && forall n :: 0 <= n < |labels| ==> Step(k, run[n], labels[n], run[n + 1])
  }

  lemma {:induction false} AlwaysInv(k: Session, run: seq<State>, labels: seq<Label>, n: nat)
    requires Execution(k, run, labels) && n < |run|
    ensures Inv(k, run[n])
  {
    hide Step, Inv, Init;
    if n == 0 {
      InitOk(k, run[0]);
    } else {
      AlwaysInv(k, run, labels, n - 1);
      StepKeepsInv(k, run[n - 1], labels[n - 1], run[n]);
    }
  }

  lemma {:induction false} InitOk(k: Session, s: State)
    requires Init(k, s)
    ensures Inv(k, s)
  {
    hide ValidPrefix, Recovered;
    assert k.start + [] == k.start;
  }

  /** Stop the process at any instant. The complete records on file, the longest
      valid prefix, are those of the startup journal and of every command applied,
      plus at most the one command in hand: they describe the engine as it was or
      one command further. */
  lemma {:induction false} StopLeavesJournal(k: Session, run: seq<State>, labels: seq<Label>, n: nat) returns (m: nat)
    requires Execution(k, run, labels) && n < |run| && k.journaling
    ensures LongestPrefix(run[n].file, m)
    ensures Describes(k, run[n], Engine.Run(k.risk, Engine.EMPTY, Commands(run[n].file, m)))
  {
    hide Execution, Engine.Run, Engine.Apply, Engine.Tape, Engine.Reports, Commands, Encode, RecordOk;
    AlwaysInv(k, run, labels, n);
    var s := run[n];
    m := k.records + |s.logged|;
    ExtendedWhole(k, s.logged);
    TornAfterWhole(Extended(k, s.logged), m, s.torn);
    Rebuilt(k, s.logged);
    if s.logged != s.applied {
      var c := s.logged[|s.logged| - 1];
      assert s.logged == s.applied + [c];
      RunSnoc(k.risk, Recovered(k), s.applied, c);
    }
  }

  /** The engine as it was, or after the one command journaled ahead. */
  ghost predicate Describes(k: Session, s: State, e: Engine.Engine) {
    e == s.engine || exists c :: s.logged == s.applied + [c] && e == Engine.Apply(k.risk, s.engine, c).engine
  }

  /** Restarting from what a stop left behind succeeds exactly when the file length
      is a multiple of the record size, which an operator can check; and then the
      engine is as it was or one journaled command further. */
  lemma {:induction false} RestartIffNoTornRecord(k: Session, run: seq<State>, labels: seq<Label>, n: nat)
    requires Execution(k, run, labels) && n < |run| && k.journaling
    ensures Recoverable(run[n].file) <==> |run[n].file| % RECORD_SIZE == 0
    ensures Recoverable(run[n].file) ==>
              Describes(k, run[n], Engine.Run(k.risk, Engine.EMPTY, Commands(run[n].file, |run[n].file| / RECORD_SIZE)))
  {
    hide Execution, Engine.Run, Commands, ValidPrefix, Describes, Inv;
    var s := run[n];
    var m := StopLeavesJournal(k, run, labels, n);
    AlwaysInv(k, run, labels, n);
    FileLength(k, s);
    PrefixLength(s.file, m);
    if |s.file| % RECORD_SIZE == 0 {
      LongestPrefixUnique(s.file, m, |s.file| / RECORD_SIZE);
    }
  }

  /** Only a torn record makes the length uneven, and without one the file is whole. */
  lemma {:induction false} FileLength(k: Session, s: State)
    requires Inv(k, s) && k.journaling
    ensures s.torn == [] <==> |s.file| % RECORD_SIZE == 0
    ensures s.torn == [] ==> WholeFile(s.file, |s.file| / RECORD_SIZE) && LongestPrefix(s.file, |s.file| / RECORD_SIZE)
  {
    hide Encode, Extended, RecordOk, Engine.Run, Engine.Tape, Engine.Reports, Recovered;
    var n := k.records + |s.logged|;
    ExtendedWhole(k, s.logged);
    FileSize(Extended(k, s.logged), n);
    Remainder(n, |s.torn|);
    if s.torn == [] {
      assert s.file == Extended(k, s.logged);
      WholeIsLongest(s.file, n);
    }
  }

  lemma {:induction false} Remainder(n: nat, t: nat)
    requires t < RECORD_SIZE
    ensures (RECORD_SIZE * n + t) % RECORD_SIZE == t && (RECORD_SIZE * n + t) / RECORD_SIZE == n
  {
  }

  lemma {:induction false} PrefixLength(file: seq<byte>, m: nat)
    requires LongestPrefix(file, m)
    ensures RECORD_SIZE * m <= |file|
  {
  }

  /** Recovery from a stop at any instant is not guaranteed: for every session and
      command, stopping after any proper part of its record leaves a file that a
      restart refuses. */
  lemma {:induction false} RestartCanFail(k: Session, c: Command, part: nat)
    returns (run: seq<State>, labels: seq<Label>)
    requires WholeFile(k.start, k.records) && k.journaling && 0 < part < RECORD_SIZE
    ensures Execution(k, run, labels) && !Recoverable(run[|run| - 1].file)
  {
    hide Encode, ValidPrefix, Recovered;
    var s0 := State(Polling, k.start, Ordinal(k.records), Recovered(k), [], [], [], [], [], false,
                    Trades(false), 0, 0, [], []);
    var s1 := s0.(phase := Writing(c, 0));
    var record := Encode(s0.nextOrdinal, c);
    var s2 := s1.(phase := Writing(c, part), file := k.start + record[0..part], torn := record[..part]);
    run, labels := [s0, s1, s2], [Poll(c), Write(part)];
    assert Step(k, s0, Poll(c), s1) && Step(k, s1, Write(part), s2);
    Remainder(k.records, part);
  }

  /** Replaying the extended journal continues where the recovered engine was. */
  lemma {:induction false} Rebuilt(k: Session, commands: seq<Command>)
    requires WholeFile(k.start, k.records)
    ensures Engine.Run(k.risk, Engine.EMPTY, Commands(k.start, k.records) + UnsequencedAll(commands))
         == Engine.Run(k.risk, Recovered(k), commands)
  {
    hide Engine.Run, UnsequencedAll, Commands;
    RunConcat(k.risk, Engine.EMPTY, Commands(k.start, k.records), UnsequencedAll(commands));
    RunIgnoresSequence(k.risk, Recovered(k), commands);
  }

  /** Nothing is published that the journal could not reproduce. */
  lemma {:induction false} PublishedIsJournaled(k: Session, run: seq<State>, labels: seq<Label>, n: nat)
    requires Execution(k, run, labels) && n < |run| && k.journaling
    ensures RECORD_SIZE * k.records <= |k.start|
    ensures run[n].tradeQueue <= Engine.Tape(k.risk, Recovered(k), run[n].logged)
    ensures run[n].reportQueue <= Engine.Reports(k.risk, Recovered(k), run[n].logged)
    ensures LongestPrefix(run[n].file, k.records + |run[n].logged|)
  {
    hide Execution, Engine.Run, Engine.Apply, Encode, RecordOk;
    AlwaysInv(k, run, labels, n);
    var s, e := run[n], Recovered(k);
    ExtendedWhole(k, s.logged);
    TornAfterWhole(Extended(k, s.logged), k.records + |s.logged|, s.torn);
    if s.logged != s.applied {
      var c := s.logged[|s.logged| - 1];
      assert s.logged == s.applied + [c];
      assert s.logged[..|s.applied|] == s.applied;
    }
  }

  lemma {:induction false} ExitedHasAll(k: Session, s: State)
    requires Inv(k, s) && s.viewer.Exited?
    ensures RECORD_SIZE * k.records <= |k.start|
    ensures s.seenTrades == Engine.Tape(k.risk, Recovered(k), s.applied)
    ensures s.seenReports == Engine.Reports(k.risk, Recovered(k), s.applied)
    ensures s.phase.Done?
  {
    hide Recovered, Engine.Tape, Engine.Reports, Engine.Run, WriteAhead, ValidPrefix;
    assert s.tradeQueue + [] == s.tradeQueue && s.reportQueue + [] == s.reportQueue;
  }

  /** The viewer leaves only after it has taken every trade and every report of
      every applied command, each once and in order. */
  lemma {:induction false} ViewerMissesNothing(k: Session, run: seq<State>, labels: seq<Label>, n: nat)
    requires Execution(k, run, labels) && n < |run| && run[n].viewer.Exited?
    ensures RECORD_SIZE * k.records <= |k.start|
    ensures run[n].seenTrades == Engine.Tape(k.risk, Recovered(k), run[n].applied)
    ensures run[n].seenReports == Engine.Reports(k.risk, Recovered(k), run[n].applied)
    ensures run[n].phase.Done?
  {
    hide Execution, Inv, Recovered, Engine.Tape, Engine.Reports;
    AlwaysInv(k, run, labels, n);
    ExitedHasAll(k, run[n]);
  }

  /** At every instant the viewer holds a prefix of what a replay would print. */
  lemma {:induction false} ViewerInOrder(k: Session, run: seq<State>, labels: seq<Label>, n: nat)
    requires Execution(k, run, labels) && n < |run|
    ensures RECORD_SIZE * k.records <= |k.start|
    ensures run[n].seenTrades <= Engine.Tape(k.risk, Recovered(k), run[n].applied)
    ensures run[n].seenReports <= Engine.Reports(k.risk, Recovered(k), run[n].applied)
  {
    hide Execution, Recovered, Engine.Tape, Engine.Reports, Engine.Run, WriteAhead, ValidPrefix;
    AlwaysInv(k, run, labels, n);
  }

  // ---------------------------------------------------------------------
  // The viewer can finish

  /** `z` comes after `s` in `n` steps of the viewer alone. */
  ghost predicate ViewerReaches(s: State, n: nat, z: State)
    decreases n
  {
    if n == 0 then z == s
    else exists l, s' :: ViewerStep(s, l, s') && ViewerReaches(s', n - 1, z)
  }

  ghost predicate CanExit(s: State) {
    exists n: nat, z: State :: ViewerReaches(s, n, z) && z.viewer.Exited?
  }

  lemma {:induction false} ExitLater(s: State, l: Label, s': State)
    requires ViewerStep(s, l, s') && CanExit(s')
    ensures CanExit(s)
  {
    hide ViewerStep;
    var n: nat, z: State :| ViewerReaches(s', n, z) && z.viewer.Exited?;
    assert ViewerReaches(s, n + 1, z);
  }

  ghost function Unseen(s: State): int {
    |s.tradeQueue| - |s.seenTrades| + |s.reportQueue| - |s.seenReports|
  }

  /** Steps until something is taken, or until the exit if all is taken. */
  ghost function Stage(s: State): nat {
    if |s.seenTrades| < |s.tradeQueue| then
      match s.viewer
      case Trades(_) => 0
      case Reports(_) => 2
      case _ => 1
    else if |s.seenReports| < |s.reportQueue| then
      match s.viewer
      case Reports(_) => 0
      case Trades(_) => 1
      case AskTrades => 3
      case _ => 2
    else
      match s.viewer
      case Trades(any) => if any then 7 else 5
      case Reports(any) => if any then 6 else 4
      case AskDone => 3
      case AskTrades => 2
      case AskReports => 1
      case Exited => 0
  }

  /** The next step of a viewer that sees everything published. */
  lemma {:induction false} ViewerAdvances(s: State) returns (l: Label, s': State)
    requires ViewOk(s) && s.done && !s.viewer.Exited?
    ensures ViewerStep(s, l, s') && s'.done
    ensures Unseen(s') < Unseen(s) || (Unseen(s') == Unseen(s) && Stage(s') < Stage(s))
  {
    var t, r := |s.tradeQueue|, |s.reportQueue|;
    var more := |s.seenTrades| < t || |s.seenReports| < r;
    match s.viewer
    case Trades(any) =>
      l := TakeTrade(t);
      s' := if t == |s.seenTrades| then s.(viewer := Reports(any), tradeView := t)
            else s.(viewer := Trades(true), tradeView := t,
                    seenTrades := s.seenTrades + [s.tradeQueue[|s.seenTrades|]]);
    case Reports(any) =>
      l := TakeReport(r);
      s' := if r == |s.seenReports| then s.(viewer := if any then Trades(false) else AskDone, reportView := r)
            else s.(viewer := Reports(true), reportView := r,
                    seenReports := s.seenReports + [s.reportQueue[|s.seenReports|]]);
    case AskDone =>
      l := LoadDone(!more);
      s' := if more then s.(viewer := Trades(false)) else s.(viewer := AskTrades, tradeView := t, reportView := r);
    case AskTrades =>
      l := TradesEmpty(t);
      s' := s.(viewer := if t == |s.seenTrades| then AskReports else Trades(false), tradeView := t);
    case AskReports =>
      l := ReportsEmpty(r);
      s' := s.(viewer := if r == |s.seenReports| then Exited else Trades(false), reportView := r);
  }

  lemma {:induction false} ViewerLeaves(s: State)
    requires ViewOk(s) && s.done
    ensures CanExit(s)
    decreases Unseen(s), Stage(s)
  {
    hide ViewOk, ViewerStep, Unseen, Stage, CanExit;
    if s.viewer.Exited? {
      AtExit(s);
    } else {
      var l, s' := ViewerAdvances(s);
      ViewerKeepsView(s, l, s');
      UnseenIsNat(s);
      UnseenIsNat(s');
      ViewerLeaves(s');
      ExitLater(s, l, s');
    }
  }

  lemma {:induction false} AtExit(s: State)
    requires s.viewer.Exited?
    ensures CanExit(s)
  {
    assert ViewerReaches(s, 0, s);
  }

  lemma {:induction false} UnseenIsNat(s: State)
    requires ViewOk(s)
    ensures Unseen(s) >= 0
  {
  }

  /** Once the engine is done, the viewer can always come to its exit by itself. */
  lemma {:induction false} ViewerCanFinish(k: Session, run: seq<State>, labels: seq<Label>, n: nat)
    requires Execution(k, run, labels) && n < |run| && run[n].done
    ensures CanExit(run[n])
  {
    hide Execution, CanExit, WriteAhead, Published, ViewOk, WholeFile;
    AlwaysInv(k, run, labels, n);
    ViewerLeaves(run[n]);
  }
}
