/**
 Nonces and locks of the ledger client (backend/apps/ledger/client.py): threads of one process
 send transactions from shared accounts, one at a time for each account.
 */
module Nonces {
  import opened Basics
  import opened Crypto

  /** What a thread was asked to send. Registrar calls and gas funding are signed by one account. */
  datatype Operation = IssuerCall(account: string) | RegistrarCall | FundIssuer(target: string)

  /**
   How far a thread has come: about to look up its lock, doing so, waiting for it, holding it,
   with the account's transaction count read, with its transaction accepted, done.
   */
  datatype Phase = Starting | LookingUp | Queued | Holding | Counted(nonce: nat) | Submitted(nonce: nat) | Done

  datatype Thread = Thread(operation: Operation, phase: Phase)

  /**
   `locks` is the dictionary of locks with their holders, `guard` the lock around it. For every
   account the node keeps the count of transactions it has accepted, and `accepted` their nonces.
   */
  datatype Process = Process(
    registrar: string, threads: seq<Thread>, guard: Option<nat>, locks: map<string, Option<nat>>,
    count: map<string, nat>, accepted: map<string, seq<nat>>)

  /** `get_transaction_count(account, "pending")`. */
  function CountOf(p: Process, account: string): nat {
    if account in p.count then p.count[account] else 0
  }

  function AcceptedFrom(p: Process, account: string): seq<nat> {
    if account in p.accepted then p.accepted[account] else []
  }

  function Sender(p: Process, t: nat): string
    requires t < |p.threads|
  {
    match p.threads[t].operation
    case IssuerCall(account) => account
    case RegistrarCall => p.registrar
    case FundIssuer(_) => p.registrar
  }

  datatype Step =
    | Begin(operation: Operation)
    | TakeGuard(thread: nat)
    | FindLock(thread: nat)
    | Acquire(thread: nat)
    | Count(thread: nat)
    | Submit(thread: nat)
    | GiveUp(thread: nat)
    | Finish(thread: nat)

  predicate At(p: Process, t: nat, phase: Phase) {
    t < |p.threads| && p.threads[t].phase == phase
  }

  predicate Enabled(p: Process, s: Step) {
    match s
    case Begin(_) => true
    case TakeGuard(t) => At(p, t, Starting) && p.guard.None?
    case FindLock(t) => At(p, t, LookingUp)
    case Acquire(t) => At(p, t, Queued) && Sender(p, t) in p.locks && p.locks[Sender(p, t)] == None
    case Count(t) => At(p, t, Holding)
    case Submit(t) => t < |p.threads| && p.threads[t].phase.Counted?
    case GiveUp(t) => t < |p.threads| && (p.threads[t].phase.Holding? || p.threads[t].phase.Counted?)
    case Finish(t) => t < |p.threads| && p.threads[t].phase.Submitted?
  }

  function Move(p: Process, t: nat, phase: Phase): Process
    requires t < |p.threads|
  {
    p.(threads := p.threads[t := p.threads[t].(phase := phase)])
  }

  /** The dictionary's `setdefault`. */
  function WithLock(locks: map<string, Option<nat>>, account: string): map<string, Option<nat>> {
    if account in locks then locks else locks[account := None]
  }

  /** The node takes a transaction only with the next nonce of its account. */
  predicate Accepts(p: Process, account: string, nonce: nat) {
    nonce == CountOf(p, account)
  }

  function Next(p: Process, s: Step): Process
    requires Enabled(p, s)
  {
    match s
    case Begin(operation) => p.(threads := p.threads + [Thread(operation, Starting)])
    case TakeGuard(t) => Move(p, t, LookingUp).(guard := Some(t))
    case FindLock(t) => Move(p, t, Queued).(guard := None, locks := WithLock(p.locks, Sender(p, t)))
    case Acquire(t) => Move(p, t, Holding).(locks := p.locks[Sender(p, t) := Some(t)])
    case Count(t) => Move(p, t, Counted(CountOf(p, Sender(p, t))))
    case Submit(t) =>
      var account, nonce := Sender(p, t), p.threads[t].phase.nonce;
      if Accepts(p, account, nonce) then
        Move(p, t, Submitted(nonce)).(
          count := p.count[account := CountOf(p, account) + 1],
          accepted := p.accepted[account := AcceptedFrom(p, account) + [nonce]])
      else Released(p, t)
    case GiveUp(t) => Released(p, t)
    case Finish(t) => Released(p, t)
  }

  /** Leaving the `with` block, by whatever way. */
  function Released(p: Process, t: nat): Process
    requires t < |p.threads|
  {
    Move(p, t, Done).(locks := p.locks[Sender(p, t) := None])
  }

  // --------------------------------------------------------------- invariant

  predicate InSection(phase: Phase) {
    phase.Holding? || phase.Counted? || phase.Submitted?
  }

  /** A thread and its lock know of each other, and a nonce that was read is still the next one. */
  predicate ThreadOk(p: Process, t: nat)
    requires t < |p.threads|
  {
    var phase, account := p.threads[t].phase, Sender(p, t);
    && (phase.LookingUp? <==> p.guard == Some(t))
    && (phase.Queued? ==> account in p.locks)
    && (InSection(phase) ==> account in p.locks && p.locks[account] == Some(t))
    && (phase.Counted? ==> phase.nonce == CountOf(p, account))
  }

  /** A held lock is held by a thread that sends from its account. */
  predicate LocksOk(p: Process) {
    && (p.guard.Some? ==> p.guard.value < |p.threads|)
    && forall a | a in p.locks && p.locks[a].Some? ::
         p.locks[a].value < |p.threads| && InSection(p.threads[p.locks[a].value].phase) && Sender(p, p.locks[a].value) == a
  }

  /** The accepted nonces of an account are consecutive and end just below its count. */
  predicate Sequential(nonces: seq<nat>, count: nat) {
    && |nonces| <= count
    && forall i | 0 <= i < |nonces| :: nonces[i] == count - |nonces| + i
  }

  predicate NoncesOk(p: Process) {
    forall a | a in p.accepted :: Sequential(p.accepted[a], CountOf(p, a))
  }

  predicate ThreadsOk(p: Process) {
    forall t | 0 <= t < |p.threads| :: ThreadOk(p, t)
  }

  predicate Inv(p: Process) {
    ThreadsOk(p) && LocksOk(p) && NoncesOk(p)
  }

  /** A process that has sent nothing; its accounts may have sent before. */
  predicate Init(p: Process) {
    p.threads == [] && p.guard == None && p.locks == map[] && p.accepted == map[]
  }

  /** No two threads are between lock and release for one account, whatever they are sending. */
  lemma MutualExclusion(p: Process, t: nat, u: nat)
    requires ThreadsOk(p) && t < |p.threads| && u < |p.threads| && t != u
    requires InSection(p.threads[t].phase) && InSection(p.threads[u].phase)
    ensures Sender(p, t) != Sender(p, u)
  {
    assert ThreadOk(p, t) && ThreadOk(p, u);
  }

  lemma StepKeepsLocks(p: Process, s: Step)
    requires ThreadsOk(p) && LocksOk(p) && Enabled(p, s)
    ensures LocksOk(Next(p, s))
  {
    if !s.Begin? {
      assert ThreadOk(p, s.thread);
    }
    hide ThreadsOk;
  }

  /** Other threads do not notice a step: they share neither lock nor count with the one that moves. */
  lemma OthersUnmoved(p: Process, s: Step, u: nat)
    requires ThreadsOk(p) && Enabled(p, s) && !s.Begin? && u < |p.threads| && u != s.thread
    ensures ThreadOk(Next(p, s), u)
  {
    assert ThreadOk(p, u) && ThreadOk(p, s.thread);
    hide ThreadsOk;
  }

  lemma MoverOk(p: Process, s: Step)
    requires ThreadsOk(p) && Enabled(p, s) && !s.Begin?
    ensures ThreadOk(Next(p, s), s.thread)
  {
    assert ThreadOk(p, s.thread);
    hide ThreadsOk;
  }

  lemma StepKeepsThreads(p: Process, s: Step)
    requires ThreadsOk(p) && LocksOk(p) && Enabled(p, s)
    ensures ThreadsOk(Next(p, s))
  {
    forall u | 0 <= u < |Next(p, s).threads| ensures ThreadOk(Next(p, s), u) {
      if s.Begin? {
        if u < |p.threads| {
          assert ThreadOk(p, u);
        }
      } else if u == s.thread {
        MoverOk(p, s);
      } else {
        OthersUnmoved(p, s, u);
      }
    }
  }

  lemma StepKeepsNonces(p: Process, s: Step)
    requires NoncesOk(p) && Enabled(p, s)
    ensures NoncesOk(Next(p, s))
  {
    forall a | a in Next(p, s).accepted ensures Sequential(Next(p, s).accepted[a], CountOf(Next(p, s), a)) {
      if a in p.accepted { assert Sequential(p.accepted[a], CountOf(p, a)); }
    }
  }

  predicate CanRun(p: Process, steps: seq<Step>)
    decreases |steps|
  {
    steps == [] || (Enabled(p, steps[0]) && CanRun(Next(p, steps[0]), steps[1..]))
  }

  function Run(p: Process, steps: seq<Step>): Process
    requires CanRun(p, steps)
    decreases |steps|
  {
    if steps == [] then p else Run(Next(p, steps[0]), steps[1..])
  }

  lemma {:induction false} RunKeepsInv(p: Process, steps: seq<Step>)
    requires Inv(p) && CanRun(p, steps)
    ensures Inv(Run(p, steps))
    decreases |steps|
  {
    hide Enabled, Next, ThreadsOk, LocksOk, NoncesOk;
    if steps != [] {
      StepKeepsThreads(p, steps[0]);
      StepKeepsLocks(p, steps[0]);
      StepKeepsNonces(p, steps[0]);
      RunKeepsInv(Next(p, steps[0]), steps[1..]);
    }
  }

  lemma StepKeepsBase(p: Process, s: Step, account: string)
    requires Enabled(p, s)
    ensures CountOf(Next(p, s), account) - |AcceptedFrom(Next(p, s), account)|
            == CountOf(p, account) - |AcceptedFrom(p, account)|
  {
  }

  lemma {:induction false} RunKeepsBase(p: Process, steps: seq<Step>, account: string)
    requires CanRun(p, steps)
    ensures CountOf(Run(p, steps), account) - |AcceptedFrom(Run(p, steps), account)|
            == CountOf(p, account) - |AcceptedFrom(p, account)|
    decreases |steps|
  {
    hide Enabled, Next, CountOf, AcceptedFrom;
    if steps != [] {
      StepKeepsBase(p, steps[0], account);
      RunKeepsBase(Next(p, steps[0]), steps[1..], account);
    }
  }

  /**
   Over any interleaving, the transactions accepted for an account carry the nonces that follow
   the count it started with, one by one: none is skipped and none is used twice.
   */
  lemma NoncesAreConsecutive(p: Process, steps: seq<Step>, account: string)
    requires Init(p) && CanRun(p, steps)
    ensures var nonces := AcceptedFrom(Run(p, steps), account);
            && (forall i | 0 <= i < |nonces| :: nonces[i] == CountOf(p, account) + i)
            && CountOf(Run(p, steps), account) == CountOf(p, account) + |nonces|
  {
    hide CanRun, Run;
    RunKeepsInv(p, steps);
    RunKeepsBase(p, steps, account);
    var q := Run(p, steps);
    if account in q.accepted {
      assert Sequential(q.accepted[account], CountOf(q, account));
    }
  }

  /** No transaction is ever turned away for its nonce. */
  lemma NonceAlwaysAccepted(p: Process, steps: seq<Step>, t: nat)
    requires Inv(p) && CanRun(p, steps) && Enabled(Run(p, steps), Submit(t))
    ensures var q := Run(p, steps); Accepts(q, Sender(q, t), q.threads[t].phase.nonce)
  {
    hide CanRun, Run;
    RunKeepsInv(p, steps);
    assert ThreadOk(Run(p, steps), t);
  }

  // -------------------------------------------------------------- no deadlock

  predicate Unfinished(p: Process, t: nat) {
    t < |p.threads| && !p.threads[t].phase.Done?
  }

  /** The thread that an unfinished one waits for, if it cannot move itself. */
  lemma SomebodyMoves(p: Process, t: nat)
    requires ThreadsOk(p) && LocksOk(p) && Unfinished(p, t)
    ensures exists s: Step :: !s.Begin? && Enabled(p, s)
  {
    assert ThreadOk(p, t);
    match p.threads[t].phase
    case Starting =>
      if p.guard.None? {
        assert Enabled(p, TakeGuard(t));
      } else {
        var u := p.guard.value;
        assert ThreadOk(p, u);
        assert Enabled(p, FindLock(u));
      }
    case LookingUp => assert Enabled(p, FindLock(t));
    case Queued =>
      var account := Sender(p, t);
      if p.locks[account].None? {
        assert Enabled(p, Acquire(t));
      } else {
        HolderMoves(p, p.locks[account].value);
      }
    case _ => HolderMoves(p, t);
  }

  lemma HolderMoves(p: Process, t: nat)
    requires t < |p.threads| && InSection(p.threads[t].phase)
    ensures exists s: Step :: !s.Begin? && Enabled(p, s)
  {
    match p.threads[t].phase
    case Holding => assert Enabled(p, Count(t));
    case Counted(_) => assert Enabled(p, Submit(t));
    case Submitted(_) => assert Enabled(p, Finish(t));
    case _ =>
  }

  /** Whatever has run so far, as long as a thread is unfinished some thread can go on. */
  lemma NoDeadlock(p: Process, steps: seq<Step>, t: nat)
    requires Inv(p) && CanRun(p, steps) && Unfinished(Run(p, steps), t)
    ensures exists s: Step :: !s.Begin? && Enabled(Run(p, steps), s)
  {
    hide CanRun, Run, Enabled;
    RunKeepsInv(p, steps);
    SomebodyMoves(Run(p, steps), t);
  }

  // -------------------------------------------------------- the lock dictionary

  class Lock {
    constructor ()
    {
    }
  }

  class LedgerClient {
    var nonceLocks: map<string, Lock>

    /** Every account has a lock of its own. */
    ghost predicate Valid()
      reads this
    {
      forall a, b | a in nonceLocks && b in nonceLocks && a != b :: nonceLocks[a] != nonceLocks[b]
    }

    /** The dictionary as `Process` has it, with or without holders. */
    ghost predicate Represents(locks: map<string, Option<nat>>)
      reads this
    {
      nonceLocks.Keys == locks.Keys
    }

    constructor ()
      ensures Valid() && nonceLocks == map[] && Represents(map[])
    {
      nonceLocks := map[];
    }

    /**
     `_nonce_lock`: the same lock for an account every time, however the letters of its address are
     written, and never another account's.
     */
    method NonceLock(address: string, ghost locks: map<string, Option<nat>>) returns (lock: Lock)
      requires Valid() && Represents(locks) && forall a | a in nonceLocks :: allocated(nonceLocks[a])
      modifies this
      ensures Valid()
      ensures var account := LOWER(address);
              && account in nonceLocks && nonceLocks[account] == lock && Represents(WithLock(locks, account))
              && (account in old(nonceLocks) ==> lock == old(nonceLocks)[account] && nonceLocks == old(nonceLocks))
              && (account !in old(nonceLocks) ==> fresh(lock) && nonceLocks == old(nonceLocks)[account := lock])
    {
      var account := LOWER(address);
      if account !in nonceLocks {
        var made := new Lock();
        nonceLocks := nonceLocks[account := made];
      }
      lock := nonceLocks[account];
    }
  }
}
