/** The load generator's consistency workload (cmd/loadgen/main.go:219-481): any number of workers
    run transfers as transactions under row locks (section 13.3.2 of the PostgreSQL
    documentation, read committed isolation), next to event inserts, updates and deletes. */
module Transfers {
  type Account = int
  type Worker = nat

  datatype Transfer = Transfer(from: Account, to: Account, amount: int)

  datatype EventRow = EventRow(account: Account, amount: int)

  /** Where a transfer's transaction stands: what it does next. */
  datatype Phase = LockLow | LockHigh | Check | Debit | Credit | Insert | Commit

  /** A transaction with the balances it read, its uncommitted account versions and event rows. */
  datatype Txn =
    | NoTxn
    | Txn(t: Transfer, phase: Phase, balLow: int, balHigh: int, own: map<Account, int>, rows: seq<EventRow>)

  datatype Config = Config(accounts: nat, startBal: nat)

  /** The committed tables and every worker's open transaction. */
  datatype State = State(accounts: map<Account, int>, events: map<nat, EventRow>, nextId: nat, txns: map<Worker, Txn>)

  datatype Step =
    | Begin(w: Worker, t: Transfer)
    | Advance(w: Worker)
    | Abort(w: Worker)
    | InsertEvent(row: EventRow)
    | UpdateEvents(account: Account, ids: set<nat>)
    | DeleteEvents(ids: set<nat>)

  predicate Seeded(c: Config, a: Account) {
    1 <= a <= c.accounts
  }

  function Low(t: Transfer): Account { if t.from > t.to then t.to else t.from }
  function High(t: Transfer): Account { if t.from > t.to then t.from else t.to }

  /** The account rows a transaction has locked FOR UPDATE. */
  function Held(x: Txn): set<Account> {
    if x.NoTxn? || x.phase == LockLow then {}
    else if x.phase == LockHigh then {Low(x.t)}
    else {Low(x.t), High(x.t)}
  }

  /** The row the transaction asks for next, if its next statement takes a lock. */
  predicate Wants(x: Txn, a: Account) {
    x.Txn? && ((x.phase == LockLow && a == Low(x.t)) || (x.phase == LockHigh && a == High(x.t)))
  }

  predicate Free(s: State, w: Worker, a: Account) {
    forall v | v in s.txns :: v != w ==> a !in Held(s.txns[v])
  }

  /** The row version a statement of the transaction sees: its own, else the committed one. */
  function Visible(s: State, x: Txn, a: Account): int {
    if x.Txn? && a in x.own then x.own[a] else if a in s.accounts then s.accounts[a] else 0
  }

  /** opTransfer, one statement at a time (cmd/loadgen/main.go:350-385). */
  function Statement(s: State, w: Worker, x: Txn): State
    requires x.Txn?
  {
    var t := x.t;
    match x.phase
    case LockLow =>
      if Free(s, w, Low(t)) then s.(txns := s.txns[w := x.(phase := LockHigh, balLow := Visible(s, x, Low(t)))]) else s
    case LockHigh =>
      if Free(s, w, High(t)) then s.(txns := s.txns[w := x.(phase := Check, balHigh := Visible(s, x, High(t)))]) else s
    case Check =>
      // Only money that exists is moved; a skipped transfer commits without changes.
      var balFrom := if t.from == Low(t) then x.balLow else x.balHigh;
      s.(txns := s.txns[w := x.(phase := if balFrom < t.amount then Commit else Debit)])
    case Debit =>
      s.(txns := s.txns[w := x.(phase := Credit, own := x.own[t.from := Visible(s, x, t.from) - t.amount])])
    case Credit =>
      s.(txns := s.txns[w := x.(phase := Insert, own := x.own[t.to := Visible(s, x, t.to) + t.amount])])
    case Insert =>
      s.(txns := s.txns[w := x.(phase := Commit, rows := Entries(t))])
    case Commit =>
      State(s.accounts + x.own, AddRows(s.events, s.nextId, x.rows), s.nextId + |x.rows|, s.txns[w := NoTxn])
  }

  function AddRows(events: map<nat, EventRow>, next: nat, rows: seq<EventRow>): map<nat, EventRow>
    decreases rows
  {
    if rows == [] then events else AddRows(events[next := rows[0]], next + 1, rows[1..])
  }

  /** One step of one party; a step that is not possible changes nothing. */
  function Apply(c: Config, s: State, e: Step): State {
    match e
    case Begin(w, t) =>
      if (w in s.txns ==> s.txns[w].NoTxn?) && Seeded(c, t.from) && Seeded(c, t.to) && t.from != t.to
          && 1 <= t.amount <= 100
      then s.(txns := s.txns[w := Txn(t, LockLow, 0, 0, map[], [])]) else s
    case Advance(w) => if w in s.txns && s.txns[w].Txn? then Statement(s, w, s.txns[w]) else s
    case Abort(w) => if w in s.txns then s.(txns := s.txns[w := NoTxn]) else s
    case InsertEvent(row) =>
      if Seeded(c, row.account) then s.(events := s.events[s.nextId := row], nextId := s.nextId + 1) else s
    case UpdateEvents(account, ids) =>
      s.(events := map i | i in s.events ::
           if i in ids && s.events[i].account == account then s.events[i].(amount := s.events[i].amount + 1)
           else s.events[i])
    case DeleteEvents(ids) => s.(events := s.events - ids)
  }

  function Run(c: Config, s: State, steps: seq<Step>): State {
    if steps == [] then s else Apply(c, Run(c, s, steps[..|steps| - 1]), steps[|steps| - 1])
  }

  // ---------- the pot ----------

  function Sum(accounts: map<Account, int>, n: nat): int
    requires forall a :: 1 <= a <= n ==> a in accounts
  {
    if n == 0 then 0 else Sum(accounts, n - 1) + accounts[n]
  }

  /** seed's COPY callback: accounts 1..n with the start balance. */
  method CopyAccounts(c: Config) returns (accounts: map<Account, int>)
    ensures forall a :: a in accounts <==> 1 <= a <= c.accounts
    ensures forall a :: a in accounts ==> accounts[a] == c.startBal
    ensures Sum(accounts, c.accounts) == c.accounts * c.startBal
  {
    var id := 0;
    accounts := map[];
    while id < c.accounts
      invariant id <= c.accounts
      invariant forall a :: a in accounts <==> 1 <= a <= id
      invariant forall a :: a in accounts ==> accounts[a] == c.startBal
      invariant Sum(accounts, id) == id * c.startBal
    {
      id := id + 1;
      SumFrame(accounts, accounts[id := c.startBal], id - 1);
      accounts := accounts[id := c.startBal];
    }
  }

  lemma {:induction false} SumFrame(m: map<Account, int>, m': map<Account, int>, n: nat)
    requires forall a :: 1 <= a <= n ==> a in m && a in m' && m[a] == m'[a]
    ensures Sum(m, n) == Sum(m', n)
  {
    if n > 0 { SumFrame(m, m', n - 1); }
  }

  lemma {:induction false} SumUpdate(m: map<Account, int>, n: nat, a: Account, v: int)
    requires forall b :: 1 <= b <= n ==> b in m
    requires 1 <= a <= n
    ensures Sum(m[a := v], n) == Sum(m, n) + v - m[a]
  {
    if a == n {
      SumFrame(m, m[a := v], n - 1);
    } else {
      SumUpdate(m, n - 1, a, v);
    }
  }

  // ---------- the invariant ----------

  /** The locks really exclude each other. */
  ghost predicate Exclusive(s: State) {
    forall v, w :: v in s.txns && w in s.txns && v != w ==> Held(s.txns[v]) !! Held(s.txns[w])
  }

  /** A transaction's reads still describe the committed rows it has locked, its own versions are
      the debit and the credit of its transfer, and its events name seeded accounts. */
  ghost predicate TxnOk(c: Config, accounts: map<Account, int>, x: Txn) {
    x.Txn? ==>
      var t := x.t;
      && Seeded(c, t.from) && Seeded(c, t.to) && t.from != t.to && t.amount >= 1
      && t.from in accounts && t.to in accounts
      && (x.phase != LockLow ==> x.balLow == accounts[Low(t)])
      && (x.phase != LockLow && x.phase != LockHigh ==> x.balHigh == accounts[High(t)])
      && (x.phase == Debit || x.phase == Credit || x.phase == Insert ==> accounts[t.from] >= t.amount)
      && (x.phase != Commit ==> x.rows == [])
      && match x.phase
         case Credit => x.own == map[t.from := accounts[t.from] - t.amount]
         case Insert => x.own == Moved(accounts, t)
         case Commit =>
           || (x.own == map[] && x.rows == [] && accounts[t.from] < t.amount)
           || (x.own == Moved(accounts, t) && x.rows == Entries(t) && accounts[t.from] >= t.amount)
         case _ => x.own == map[]
  }

  /** The two event rows of a transfer. */
  function Entries(t: Transfer): seq<EventRow> {
    [EventRow(t.from, -t.amount), EventRow(t.to, t.amount)]
  }

  ghost function Moved(accounts: map<Account, int>, t: Transfer): map<Account, int>
    requires t.from in accounts && t.to in accounts
  {
    map[t.from := accounts[t.from] - t.amount, t.to := accounts[t.to] + t.amount]
  }

  /** The committed tables: the pot is intact, no balance is negative, no event is an orphan. */
  ghost predicate TablesOk(c: Config, accounts: map<Account, int>, events: map<nat, EventRow>) {
    && (forall a :: a in accounts <==> Seeded(c, a))
    && (forall a :: a in accounts ==> accounts[a] >= 0)
    && Sum(accounts, c.accounts) == c.accounts * c.startBal
    && (forall i :: i in events ==> Seeded(c, events[i].account))
  }

  ghost predicate Inv(c: Config, s: State) {
    && Exclusive(s)
    && TablesOk(c, s.accounts, s.events)
    && (forall w :: w in s.txns ==> TxnOk(c, s.accounts, s.txns[w]))
    && (forall i :: i in s.events ==> i < s.nextId)
  }

  // ---------- conservation ----------

  lemma CommitConserves(c: Config, accounts: map<Account, int>, events: map<nat, EventRow>, t: Transfer)
    requires TablesOk(c, accounts, events) && Seeded(c, t.from) && Seeded(c, t.to) && t.from != t.to
    requires 0 <= t.amount <= accounts[t.from]
    ensures TablesOk(c, accounts + Moved(accounts, t), events)
  {
    var a1 := accounts[t.from := accounts[t.from] - t.amount];
    SumUpdate(accounts, c.accounts, t.from, accounts[t.from] - t.amount);
    SumUpdate(a1, c.accounts, t.to, accounts[t.to] + t.amount);
    assert accounts + Moved(accounts, t) == a1[t.to := accounts[t.to] + t.amount];
  }

  lemma {:induction false} AddRowsSeeded(c: Config, events: map<nat, EventRow>, next: nat, rows: seq<EventRow>)
    requires forall i :: i in events ==> Seeded(c, events[i].account)
    requires forall k :: 0 <= k < |rows| ==> Seeded(c, rows[k].account)
    ensures forall i :: i in AddRows(events, next, rows) ==> Seeded(c, AddRows(events, next, rows)[i].account)
    decreases rows
  {
    if rows != [] {
      AddRowsSeeded(c, events[next := rows[0]], next + 1, rows[1..]);
    }
  }

  lemma {:induction false} AddRowsFresh(events: map<nat, EventRow>, next: nat, rows: seq<EventRow>)
    requires forall i :: i in events ==> i < next
    ensures forall i :: i in AddRows(events, next, rows) ==> i < next + |rows|
    decreases rows
  {
    if rows != [] {
      AddRowsFresh(events[next := rows[0]], next + 1, rows[1..]);
    }
  }

  /** Another transaction's commit touches only rows it had locked, so it disturbs nobody's view. */
  lemma CommitDisturbsNobody(c: Config, accounts: map<Account, int>, x: Txn, y: Txn)
    requires TxnOk(c, accounts, x) && TxnOk(c, accounts, y) && x.Txn? && x.phase == Commit
    requires Held(x) !! Held(y)
    ensures TxnOk(c, accounts + x.own, y)
  {
    if y.Txn? {
      assert forall a :: a in Held(y) ==> a !in x.own;
    }
  }

  lemma CommittedTables(c: Config, s: State, x: Txn)
    requires TablesOk(c, s.accounts, s.events) && x.Txn? && TxnOk(c, s.accounts, x) && x.phase == Commit
    ensures TablesOk(c, s.accounts + x.own, AddRows(s.events, s.nextId, x.rows))
  {
    if x.own != map[] {
      CommitConserves(c, s.accounts, s.events, x.t);
    } else {
      assert s.accounts + x.own == s.accounts;
    }
    AddRowsSeeded(c, s.events, s.nextId, x.rows);
  }

  lemma CommitKeeps(c: Config, s: State, w: Worker)
    requires Inv(c, s) && w in s.txns && s.txns[w].Txn? && s.txns[w].phase == Commit
    ensures Inv(c, Statement(s, w, s.txns[w]))
  {
    var x := s.txns[w];
    var s' := Statement(s, w, x);
    CommittedTables(c, s, x);
    AddRowsFresh(s.events, s.nextId, x.rows);
    forall v | v in s'.txns ensures TxnOk(c, s'.accounts, s'.txns[v]) {
      if v != w { CommitDisturbsNobody(c, s.accounts, x, s.txns[v]); }
    }
  }

  /** Putting another transaction in a worker's place, with locks that nobody else holds. */
  lemma TxnReplaced(c: Config, s: State, w: Worker, x: Txn)
    requires Inv(c, s) && w in s.txns && TxnOk(c, s.accounts, x)
    requires forall v :: v in s.txns && v != w ==> Held(x) !! Held(s.txns[v])
    ensures Inv(c, s.(txns := s.txns[w := x]))
  {
  }

  /** The balance read under a lock is the committed one. */
  lemma LockTxn(c: Config, s: State, w: Worker)
    requires w in s.txns && s.txns[w].Txn? && (s.txns[w].phase == LockLow || s.txns[w].phase == LockHigh)
    requires TxnOk(c, s.accounts, s.txns[w]) && TablesOk(c, s.accounts, s.events)
    ensures var s' := Statement(s, w, s.txns[w]);
            && w in s'.txns && s' == s.(txns := s.txns[w := s'.txns[w]]) && TxnOk(c, s.accounts, s'.txns[w])
            && forall v :: v in s.txns && v != w && Held(s.txns[w]) !! Held(s.txns[v]) ==>
                 Held(s'.txns[w]) !! Held(s.txns[v])
  {
    assert s.txns[w := s.txns[w]] == s.txns;
  }

  /** Taking a free lock keeps the locks exclusive. */
  lemma LockKeeps(c: Config, s: State, w: Worker)
    requires Inv(c, s) && w in s.txns && s.txns[w].Txn? && (s.txns[w].phase == LockLow || s.txns[w].phase == LockHigh)
    ensures Inv(c, Statement(s, w, s.txns[w]))
  {
    LockTxn(c, s, w);
    TxnReplaced(c, s, w, Statement(s, w, s.txns[w]).txns[w]);
  }

  lemma LocalTxn(c: Config, s: State, w: Worker)
    requires w in s.txns && s.txns[w].Txn? && TxnOk(c, s.accounts, s.txns[w])
    requires s.txns[w].phase != LockLow && s.txns[w].phase != LockHigh && s.txns[w].phase != Commit
    ensures var s' := Statement(s, w, s.txns[w]);
            && w in s'.txns && s' == s.(txns := s.txns[w := s'.txns[w]]) && TxnOk(c, s.accounts, s'.txns[w])
            && Held(s'.txns[w]) == Held(s.txns[w])
  {
  }

  /** The statements between the locks and the commit change nothing but the transaction itself. */
  lemma LocalKeeps(c: Config, s: State, w: Worker)
    requires Inv(c, s) && w in s.txns && s.txns[w].Txn?
    requires s.txns[w].phase != LockLow && s.txns[w].phase != LockHigh && s.txns[w].phase != Commit
    ensures Inv(c, Statement(s, w, s.txns[w]))
  {
    LocalTxn(c, s, w);
    TxnReplaced(c, s, w, Statement(s, w, s.txns[w]).txns[w]);
  }

  lemma StatementKeeps(c: Config, s: State, w: Worker)
    requires Inv(c, s) && w in s.txns && s.txns[w].Txn?
    ensures Inv(c, Statement(s, w, s.txns[w]))
  {
    match s.txns[w].phase
    case Commit => CommitKeeps(c, s, w);
    case LockLow => LockKeeps(c, s, w);
    case LockHigh => LockKeeps(c, s, w);
    case _ => LocalKeeps(c, s, w);
  }

  lemma StepKeeps(c: Config, s: State, e: Step)
    requires Inv(c, s)
    ensures Inv(c, Apply(c, s, e))
  {
    if e.Advance? && e.w in s.txns && s.txns[e.w].Txn? {
      StatementKeeps(c, s, e.w);
    }
  }

  /** What seeding leaves behind: every account at the start balance, any events on seeded accounts. */
  ghost predicate Initial(c: Config, s: State) {
    && (forall a :: a in s.accounts <==> Seeded(c, a))
    && (forall a :: a in s.accounts ==> s.accounts[a] == c.startBal)
    && Sum(s.accounts, c.accounts) == c.accounts * c.startBal
    && (forall i :: i in s.events ==> Seeded(c, s.events[i].account) && i < s.nextId)
    && s.txns == map[]
  }

  lemma {:induction false} RunKeeps(c: Config, s: State, steps: seq<Step>)
    requires Initial(c, s)
    ensures Inv(c, Run(c, s, steps))
  {
    if steps != [] {
      RunKeeps(c, s, steps[..|steps| - 1]);
      StepKeeps(c, Run(c, s, steps[..|steps| - 1]), steps[|steps| - 1]);
    }
  }

  /** Exactly the debit and the credit of `x`, covered by the balance, and its two events. */
  ghost predicate MovesExactly(s: State, s': State, x: Transfer) {
    && x.from in s.accounts && x.to in s.accounts && x.from != x.to && s.accounts[x.from] >= x.amount
    && s'.accounts == s.accounts[x.from := s.accounts[x.from] - x.amount][x.to := s.accounts[x.to] + x.amount]
    && s'.events == s.events[s.nextId := EventRow(x.from, -x.amount)][s.nextId + 1 := EventRow(x.to, x.amount)]
  }

  lemma TwoRows(events: map<nat, EventRow>, next: nat, r0: EventRow, r1: EventRow)
    ensures AddRows(events, next, [r0, r1]) == events[next := r0][next + 1 := r1]
  {
    assert [r0, r1][1..] == [r1] && [r1][1..] == [];
    assert AddRows(events[next := r0], next + 1, [r1]) == AddRows(events[next := r0][next + 1 := r1], next + 2, []);
  }

  /** The tables after a transfer that has run to its end: exactly the transfer if the committed balance
      covers it, and as they were otherwise. */
  ghost predicate Concluded(s: State, s': State, t: Transfer) {
    if t.from in s.accounts && s.accounts[t.from] >= t.amount then MovesExactly(s, s', t)
    else s'.accounts == s.accounts && s'.events == s.events
  }

  lemma CommitMoves(c: Config, s: State, w: Worker)
    requires w in s.txns && s.txns[w].Txn? && s.txns[w].phase == Commit && TxnOk(c, s.accounts, s.txns[w])
    ensures Concluded(s, Statement(s, w, s.txns[w]), s.txns[w].t)
  {
    var x := s.txns[w];
    if x.own == map[] && x.rows == [] {
      assert s.accounts + x.own == s.accounts;
    } else {
      var t := x.t;
      TwoRows(s.events, s.nextId, EventRow(t.from, -t.amount), EventRow(t.to, t.amount));
      MovedAccounts(s.accounts, t);
    }
  }

  lemma MovedAccounts(accounts: map<Account, int>, t: Transfer)
    requires t.from in accounts && t.to in accounts && t.from != t.to
    ensures accounts + Moved(accounts, t)
         == accounts[t.from := accounts[t.from] - t.amount][t.to := accounts[t.to] + t.amount]
  {
  }

  /** The worker's transaction ends with the step. */
  predicate Ends(c: Config, s: State, e: Step) {
    e.Advance? && e.w in s.txns && s.txns[e.w].Txn? && Apply(c, s, e).txns[e.w].NoTxn?
  }

  /** A transfer is all or nothing, and moves money exactly if there is enough: in every reachable state, the
      step in which a transfer runs to its end makes exactly that transfer, with its two events, if the
      committed balance covers it, and leaves both tables alone otherwise; no other step of a transfer, and
      no abort, changes either table. */
  lemma TransferExactly(c: Config, s: State, steps: seq<Step>, e: Step)
    requires Initial(c, s)
    ensures var t := Run(c, s, steps);
            var t' := Apply(c, t, e);
            if Ends(c, t, e) then Concluded(t, t', t.txns[e.w].t)
            else t'.accounts == t.accounts && (e.Begin? || e.Advance? || e.Abort? ==> t'.events == t.events)
  {
    RunKeeps(c, s, steps);
    StepConcludes(c, Run(c, s, steps), e);
  }

  lemma StepConcludes(c: Config, s: State, e: Step)
    requires forall w :: w in s.txns ==> TxnOk(c, s.accounts, s.txns[w])
    ensures var s' := Apply(c, s, e);
            if Ends(c, s, e) then Concluded(s, s', s.txns[e.w].t)
            else s'.accounts == s.accounts && (e.Begin? || e.Advance? || e.Abort? ==> s'.events == s.events)
  {
    if e.Advance? && e.w in s.txns && s.txns[e.w].Txn? && s.txns[e.w].phase == Commit {
      CommitMoves(c, s, e.w);
    }
  }

  /** The account table changes only when a transfer runs to its end, and then by exactly that transfer. */
  lemma AllOrNothing(c: Config, s: State, steps: seq<Step>, e: Step)
    requires Initial(c, s)
    ensures var t := Run(c, s, steps);
            var t' := Apply(c, t, e);
            t'.accounts != t.accounts ==>
              e.Advance? && e.w in t.txns && t.txns[e.w].Txn? && MovesExactly(t, t', t.txns[e.w].t)
  {
    TransferExactly(c, s, steps, e);
  }

  /** Statements left, at most. */
  function Left(x: Txn): nat {
    if x.NoTxn? then 0
    else
      match x.phase
      case LockLow => 7
      case LockHigh => 6
      case Check => 5
      case Debit => 4
      case Credit => 3
      case Insert => 2
      case Commit => 1
  }

  /** Nobody else has locked a row of `t`. */
  ghost predicate Unhindered(s: State, w: Worker, t: Transfer) {
    forall v :: v in s.txns && v != w ==> t.from !in Held(s.txns[v]) && t.to !in Held(s.txns[v])
  }

  /** A transfer nobody hinders gets on with each of its statements. */
  lemma GetsOn(c: Config, s: State, w: Worker)
    requires Inv(c, s) && w in s.txns && s.txns[w].Txn? && Unhindered(s, w, s.txns[w].t)
    ensures var s' := Apply(c, s, Advance(w));
            && w in s'.txns && Left(s'.txns[w]) < Left(s.txns[w])
            && (forall v :: v != w ==> (v in s'.txns <==> v in s.txns) && (v in s.txns ==> s'.txns[v] == s.txns[v]))
            && (s'.txns[w].Txn? ==> s'.txns[w].t == s.txns[w].t)
            && (s'.txns[w].Txn? ==>
                  s'.accounts == s.accounts && s'.events == s.events && s'.nextId == s.nextId)
  {
    var x := s.txns[w];
    if x.phase == LockLow || x.phase == LockHigh {
      assert Free(s, w, Low(x.t)) && Free(s, w, High(x.t));
    }
  }

  /** A transfer nobody hinders runs to its end in at most seven statements, and moves its amount exactly if
      the committed balance covers it. */
  lemma {:induction false} TransferCompletes(c: Config, s: State, steps: seq<Step>, w: Worker) returns (more: seq<Step>)
    requires Initial(c, s)
    requires var r := Run(c, s, steps); w in r.txns && r.txns[w].Txn? && Unhindered(r, w, r.txns[w].t)
    ensures var r := Run(c, s, steps); var r' := Run(c, s, more);
            && |steps| < |more| <= |steps| + Left(r.txns[w]) && steps == more[..|steps|]
            && (forall k :: |steps| <= k < |more| ==> more[k] == Advance(w))
            && w in r'.txns && r'.txns[w].NoTxn? && Concluded(r, r', r.txns[w].t)
    decreases Left(Run(c, s, steps).txns[w])
  {
    var r := Run(c, s, steps);
    RunKeeps(c, s, steps);
    GetsOn(c, r, w);
    more := steps + [Advance(w)];
    assert more[..|steps|] == steps;
    TransferExactly(c, s, steps, Advance(w));
    if Run(c, s, more).txns[w].Txn? {
      var mid := more;
      more := TransferCompletes(c, s, mid, w);
      OnlyAdvances(steps, mid, more, w);
      ConcludedLater(r, Run(c, s, mid), Run(c, s, more), r.txns[w].t);
    }
  }

  lemma ConcludedLater(s: State, mid: State, s': State, t: Transfer)
    requires mid.accounts == s.accounts && mid.events == s.events && mid.nextId == s.nextId && Concluded(mid, s', t)
    ensures Concluded(s, s', t)
  {
  }

  lemma OnlyAdvances(steps: seq<Step>, mid: seq<Step>, more: seq<Step>, w: Worker)
    requires mid == steps + [Advance(w)] && |mid| <= |more| && mid == more[..|mid|]
    requires forall k :: |mid| <= k < |more| ==> more[k] == Advance(w)
    ensures steps == more[..|steps|] && forall k :: |steps| <= k < |more| ==> more[k] == Advance(w)
  {
    assert more[|steps|] == mid[|steps|];
  }

  /** A transfer can begin exactly for a worker without one, between two different seeded accounts, for an
      amount from 1 to 100, and then holds no lock. */
  lemma BeginsExactly(c: Config, s: State, w: Worker, t: Transfer)
    ensures var s' := Apply(c, s, Begin(w, t));
            if (w in s.txns ==> s.txns[w].NoTxn?) && 1 <= t.from <= c.accounts && 1 <= t.to <= c.accounts
               && t.from != t.to && 1 <= t.amount <= 100
            then && w in s'.txns && s'.txns[w].Txn? && s'.txns[w].t == t && Held(s'.txns[w]) == {}
                 && s' == s.(txns := s.txns[w := s'.txns[w]])
            else s' == s
  {
  }

  /** An abort gives up the worker's transfer and its locks, and changes nothing else. */
  lemma AbortExactly(c: Config, s: State, w: Worker)
    requires w in s.txns
    ensures var s' := Apply(c, s, Abort(w));
            && w in s'.txns && Held(s'.txns[w]) == {} && s'.txns[w].NoTxn?
            && s' == s.(txns := s.txns[w := s'.txns[w]])
  {
  }

  /** Event churn in every reachable state: an insert adds one row under an id that was not used, an update
      raises the amount of the rows of the account it picked, a delete removes the rows it picked; nothing
      else changes. */
  lemma ChurnExactly(c: Config, s: State, steps: seq<Step>, e: Step, i: nat)
    requires Initial(c, s)
    ensures var r := Run(c, s, steps); var r' := Apply(c, r, e);
            && (e.InsertEvent? && 1 <= e.row.account <= c.accounts ==>
                  r.nextId !in r.events && r'.events == r.events[r.nextId := e.row] && r'.nextId > r.nextId)
            && (e.UpdateEvents? ==>
                  && (i in r'.events <==> i in r.events)
                  && (i in r.events ==>
                        && r'.events[i].account == r.events[i].account
                        && r'.events[i].amount == r.events[i].amount +
                             (if i in e.ids && r.events[i].account == e.account then 1 else 0)))
            && (e.DeleteEvents? ==>
                  && (i in r'.events <==> i in r.events && i !in e.ids)
                  && (i in r'.events ==> r'.events[i] == r.events[i]))
  {
    RunKeeps(c, s, steps);
  }

  // ---------- the oracle ----------

  datatype Verdict = NoAccounts | Report(drift: int, negative: bool, orphans: nat)

  function Min(accounts: map<Account, int>, n: nat): int
    requires n >= 1 && forall a :: 1 <= a <= n ==> a in accounts
  {
    if n == 1 then accounts[1]
    else if accounts[n] < Min(accounts, n - 1) then accounts[n] else Min(accounts, n - 1)
  }

  /** verify's queries over tables whose accounts are 1..n (cmd/loadgen/main.go:433-479). */
  function Verify(accounts: map<Account, int>, n: nat, events: map<nat, EventRow>, startBal: int): Verdict
    requires forall a :: a in accounts <==> 1 <= a <= n
  {
    if n == 0 then NoAccounts
    else Report(Sum(accounts, n) - n * startBal, Min(accounts, n) < 0,
                |set i | i in events && events[i].account !in accounts|)
  }

  lemma {:induction false} MinNonNegative(accounts: map<Account, int>, n: nat)
    requires n >= 1 && forall a :: 1 <= a <= n ==> a in accounts && accounts[a] >= 0
    ensures Min(accounts, n) >= 0
  {
    if n > 1 { MinNonNegative(accounts, n - 1); }
  }

  /** Transfer conservation: whatever the workers, their interleaving, aborts and event churn, verify
      never reports a drifted pot, a negative balance or an orphan. */
  lemma VerifyAlwaysPasses(c: Config, s: State, steps: seq<Step>)
    requires Initial(c, s) && c.accounts >= 1
    ensures var t := Run(c, s, steps);
            && (forall a :: a in t.accounts <==> 1 <= a <= c.accounts)
            && Verify(t.accounts, c.accounts, t.events, c.startBal) == Report(0, false, 0)
  {
    RunKeeps(c, s, steps);
    var t := Run(c, s, steps);
    assert forall a :: a in t.accounts <==> Seeded(c, a);
    MinNonNegative(t.accounts, c.accounts);
    var orphans := set i | i in t.events && t.events[i].account !in t.accounts;
    assert orphans == {};
  }

  // ---------- deadlock freedom ----------

  /** `w` cannot go on because `v` holds the row it asks for. */
  ghost predicate WaitsFor(s: State, w: Worker, v: Worker) {
    && w in s.txns && v in s.txns && w != v
    && exists a :: a in Held(s.txns[v]) && Wants(s.txns[w], a)
  }

  /** The row a transaction's last or next lock is about. */
  function Wanted(s: State, w: Worker): Account {
    if w !in s.txns || s.txns[w].NoTxn? then 0
    else if s.txns[w].phase == LockLow then Low(s.txns[w].t) else High(s.txns[w].t)
  }

  ghost predicate Blocked(s: State, w: Worker) {
    exists v :: WaitsFor(s, w, v)
  }

  /** Along an edge of the wait-for graph the row asked for grows: the lower row is locked first. */
  lemma WaitsAscend(c: Config, s: State, u: Worker, v: Worker, w: Worker)
    requires Inv(c, s) && WaitsFor(s, u, v) && WaitsFor(s, v, w)
    ensures Wanted(s, u) < Wanted(s, v) <= c.accounts
  {
    var a :| a in Held(s.txns[v]) && Wants(s.txns[u], a);
    var b :| b in Held(s.txns[w]) && Wants(s.txns[v], b);
  }

  lemma {:induction false} PathAscends(c: Config, s: State, path: seq<Worker>, next: Worker)
    requires Inv(c, s) && |path| >= 2
    requires forall k :: 0 <= k < |path| - 1 ==> WaitsFor(s, path[k], path[k + 1])
    requires WaitsFor(s, path[|path| - 1], next)
    ensures Wanted(s, path[0]) < Wanted(s, path[|path| - 1])
  {
    var n := |path|;
    assert WaitsFor(s, path[n - 2], path[n - 1]);
    WaitsAscend(c, s, path[n - 2], path[n - 1], next);
    if n > 2 {
      PathAscends(c, s, path[..n - 1], path[n - 1]);
    }
  }

  /** The wait-for graph has no cycle in any reachable state. */
  lemma NoCycle(c: Config, s: State, steps: seq<Step>, cycle: seq<Worker>)
    requires Initial(c, s) && |cycle| >= 2 && cycle[0] == cycle[|cycle| - 1]
    ensures exists k :: 0 <= k < |cycle| - 1 && !WaitsFor(Run(c, s, steps), cycle[k], cycle[k + 1])
  {
    var t := Run(c, s, steps);
    RunKeeps(c, s, steps);
    if forall k :: 0 <= k < |cycle| - 1 ==> WaitsFor(t, cycle[k], cycle[k + 1]) {
      assert WaitsFor(t, cycle[|cycle| - 1], cycle[1]);
      PathAscends(c, t, cycle, cycle[1]);
    }
  }

  /** Following the waits from any unfinished transfer leads to one that can take its next step. */
  lemma {:induction false} FollowWaits(c: Config, s: State, w: Worker) returns (v: Worker)
    requires Inv(c, s) && w in s.txns && s.txns[w].Txn?
    ensures v in s.txns && s.txns[v].Txn? && !Blocked(s, v)
    decreases c.accounts - Wanted(s, w)
  {
    if !Blocked(s, w) {
      v := w;
    } else {
      var u :| WaitsFor(s, w, u);
      if Blocked(s, u) {
        var t :| WaitsFor(s, u, t);
        WaitsAscend(c, s, w, u, t);
        v := FollowWaits(c, s, u);
      } else {
        v := u;
      }
    }
  }

  /** Deadlock freedom: whenever a transfer is unfinished, some unfinished transfer's next statement
      goes through. */
  lemma SomeoneCanStep(c: Config, s: State, steps: seq<Step>, w: Worker) returns (v: Worker)
    requires Initial(c, s)
    requires w in Run(c, s, steps).txns && Run(c, s, steps).txns[w].Txn?
    ensures var t := Run(c, s, steps);
            v in t.txns && t.txns[v].Txn? && Apply(c, t, Advance(v)).txns[v] != t.txns[v]
  {
    var t := Run(c, s, steps);
    RunKeeps(c, s, steps);
    v := FollowWaits(c, t, w);
    var x := t.txns[v];
    if x.phase == LockLow || x.phase == LockHigh {
      var a := Wanted(t, v);
      forall u | u in t.txns && u != v ensures a !in Held(t.txns[u]) {
        assert !WaitsFor(t, v, u);
      }
      assert Free(t, v, a);
    }
  }
}
