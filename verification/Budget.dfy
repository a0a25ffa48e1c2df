/** The budget ledger: calls are checked, then made, then recorded, so several can be in flight at once.
    How far past a cap can that go, and is that ever reached? */
module Budget {
  import opened Records

  datatype Settings = Settings(monthlyCap: real, perTaskCap: real, inMemory: bool)

  /** A ledger row; its month is the one it was recorded in. */
  datatype Row = Row(eventId: Id, tenantId: string, owner: string, taskId: Option<Id>, cost: real, month: nat)

  /** A call that passed its check and is not yet recorded. */
  datatype Flight = Flight(tenantId: string, owner: string, taskId: Option<Id>, estimate: real)

  /** What spend is counted against: a budget owner, or a task. */
  datatype Account = OwnerAccount(tenantId: string, owner: string) | TaskAccount(tenantId: string, taskId: Id)

  predicate Charged(tenantId: string, owner: string, taskId: Option<Id>, a: Account) {
    match a
    case OwnerAccount(tn, o) => tenantId == tn && owner == o
    case TaskAccount(tn, t) => tenantId == tn && taskId == Some(t)
  }

  function Limit(settings: Settings, a: Account): real {
    if a.OwnerAccount? then settings.monthlyCap else settings.perTaskCap
  }

  /** The most one call can be estimated at. */
  function Largest(settings: Settings): real {
    if settings.monthlyCap < settings.perTaskCap then settings.monthlyCap else settings.perTaskCap
  }

  /** Spend on an account since the start of the month. */
  function Spent(ledger: seq<Row>, a: Account, month: nat): real {
    if ledger == [] then 0.0
    else
      var r := ledger[|ledger| - 1];
      Spent(ledger[..|ledger| - 1], a, month)
      + (if Charged(r.tenantId, r.owner, r.taskId, a) && r.month >= month then r.cost else 0.0)
  }

  /** Whether the check lets a call through. Against SQL the spend of the task reads as zero. */
  predicate Passes(settings: Settings, ledger: seq<Row>, month: nat, call: Flight) {
    var userRemaining := settings.monthlyCap - Spent(ledger, OwnerAccount(call.tenantId, call.owner), month);
    var taskRemaining :=
      if call.taskId.Some? && settings.inMemory
      then settings.perTaskCap - Spent(ledger, TaskAccount(call.tenantId, call.taskId.value), month)
      else settings.perTaskCap;
    call.estimate <= if userRemaining < taskRemaining then userRemaining else taskRemaining
  }

  /** Spend adds up row by row, and a row counts with its cost when it is the account's and of the month or later. */
  lemma {:induction false} SpentIs(ledger: seq<Row>, more: seq<Row>, a: Account, month: nat)
    ensures Spent(ledger + more, a, month) == Spent(ledger, a, month) + Spent(more, a, month)
    ensures forall r: Row ::
              var counts := r.month >= month && r.tenantId == a.tenantId
                            && match a
                               case OwnerAccount(_, owner) => r.owner == owner
                               case TaskAccount(_, t) => r.taskId == Some(t);
              Spent([r], a, month) == if counts then r.cost else 0.0
  {
    if more == [] {
      assert ledger + more == ledger;
    } else {
      assert (ledger + more)[..|ledger + more| - 1] == ledger + more[..|more| - 1];
      SpentIs(ledger, more[..|more| - 1], a, month);
    }
    forall r: Row ensures Spent([r], a, month) == if Charged(r.tenantId, r.owner, r.taskId, a) && r.month >= month
                                                  then r.cost else 0.0
    {
      assert [r][..0] == [];
    }
  }

  class BudgetTracker {
    const settings: Settings
    var ledger: seq<Row>
    var month: nat

    constructor (settings: Settings)
      ensures this.settings == settings && ledger == [] && month == 0
    {
      this.settings, ledger, month := settings, [], 0;
    }

    method ToDate(a: Account) returns (total: real)
      ensures total == Spent(ledger, a, month)
    {
      total := 0.0;
      for i := 0 to |ledger|
        invariant total == Spent(ledger[..i], a, month)
      {
        assert ledger[..i + 1][..i] == ledger[..i];
        var r := ledger[i];
        if Charged(r.tenantId, r.owner, r.taskId, a) && r.month >= month {
          total := total + r.cost;
        }
      }
      assert ledger[..|ledger|] == ledger;
    }

    /** Refuses a call whose estimate exceeds the tighter of the two remainders. */
    method Check(call: Flight) returns (passed: bool)
      ensures passed == Passes(settings, ledger, month, call)
      ensures passed <==>
                && call.estimate <= settings.monthlyCap - Spent(ledger, OwnerAccount(call.tenantId, call.owner), month)
                && (!settings.inMemory || call.taskId.None? ==> call.estimate <= settings.perTaskCap)
                && (settings.inMemory && call.taskId.Some? ==>
                      call.estimate <= settings.perTaskCap
                                       - Spent(ledger, TaskAccount(call.tenantId, call.taskId.value), month))
    {
      var userSpent := ToDate(OwnerAccount(call.tenantId, call.owner));
      var userRemaining := settings.monthlyCap - userSpent;
      var taskRemaining := settings.perTaskCap;
      if call.taskId.Some? && settings.inMemory {
        var taskSpent := ToDate(TaskAccount(call.tenantId, call.taskId.value));
        taskRemaining := settings.perTaskCap - taskSpent;
      }
      passed := !(call.estimate > if userRemaining < taskRemaining then userRemaining else taskRemaining);
    }

    /** Appends a row, unless its event was recorded before. */
    method Record(row: Row)
      modifies this
      ensures month == old(month)
      ensures ledger == if exists i :: 0 <= i < |old(ledger)| && old(ledger)[i].eventId == row.eventId
                        then old(ledger) else old(ledger) + [row]
    {
      for i := 0 to |ledger|
        invariant ledger == old(ledger) && month == old(month)
        invariant forall j :: 0 <= j < i ==> ledger[j].eventId != row.eventId
      {
        if ledger[i].eventId == row.eventId {
          return;
        }
      }
      ledger := ledger + [row];
    }
  }

  // ---- Concurrent calls ----------------------------------------------------------------------

  datatype State = State(ledger: seq<Row>, flying: seq<Flight>, month: nat)

  const NOTHING_SPENT := State([], [], 0)

  datatype Step = Check(call: Flight) | Record(i: nat, actual: real) | NewMonth

  function Without(s: seq<Flight>, i: nat): seq<Flight>
    requires i < |s|
  {
    s[..i] + s[i + 1..]
  }

  function RowOf(call: Flight, id: Id, actual: real, month: nat): Row {
    Row(id, call.tenantId, call.owner, call.taskId, actual, month)
  }

  function Next(settings: Settings, s: State, step: Step): State {
    match step
    case Check(call) =>
      if Passes(settings, s.ledger, s.month, call) then s.(flying := s.flying + [call]) else s
    case Record(i, actual) =>
      if i < |s.flying|
      then s.(ledger := s.ledger + [RowOf(s.flying[i], |s.ledger|, actual, s.month)], flying := Without(s.flying, i))
      else s
    case NewMonth => s.(month := s.month + 1)
  }

  function Run(settings: Settings, steps: seq<Step>): State {
    if steps == [] then NOTHING_SPENT else Next(settings, Run(settings, steps[..|steps| - 1]), steps[|steps| - 1])
  }

  function InFlight(flying: seq<Flight>, a: Account): nat {
    if flying == [] then 0
    else (if Charged(flying[0].tenantId, flying[0].owner, flying[0].taskId, a) then 1 else 0) + InFlight(flying[1..], a)
  }

  function Estimates(flying: seq<Flight>, a: Account): real {
    if flying == [] then 0.0
    else (if Charged(flying[0].tenantId, flying[0].owner, flying[0].taskId, a) then flying[0].estimate else 0.0)
         + Estimates(flying[1..], a)
  }

  /** Costs are not negative and no call costs more than it was checked for. */
  predicate Honest(s: State, step: Step) {
    match step
    case Check(call) => call.estimate >= 0.0
    case Record(i, actual) => i < |s.flying| ==> 0.0 <= actual <= s.flying[i].estimate
    case NewMonth => true
  }

  /** A run of honest steps in which never more than k calls on the account are in flight. */
  predicate Orderly(settings: Settings, steps: seq<Step>, a: Account, k: nat) {
    && InFlight(Run(settings, steps).flying, a) <= k
    && (steps == []
        || var before := steps[..|steps| - 1];
           Orderly(settings, before, a, k) && Honest(Run(settings, before), steps[|steps| - 1]))
  }

  // ---- The overspend bound -------------------------------------------------------------------

  lemma {:induction false} InFlightAppend(flying: seq<Flight>, call: Flight, a: Account)
    ensures InFlight(flying + [call], a)
         == InFlight(flying, a) + (if Charged(call.tenantId, call.owner, call.taskId, a) then 1 else 0)
    ensures Estimates(flying + [call], a)
         == Estimates(flying, a) + (if Charged(call.tenantId, call.owner, call.taskId, a) then call.estimate else 0.0)
  {
    if flying == [] {
      assert (flying + [call])[1..] == [];
    } else {
      InFlightAppend(flying[1..], call, a);
      assert (flying + [call])[1..] == flying[1..] + [call];
    }
  }

  lemma {:induction false} LandedEstimate(flying: seq<Flight>, i: nat, a: Account)
    requires i < |flying|
    ensures Estimates(Without(flying, i), a)
         == Estimates(flying, a)
            - (if Charged(flying[i].tenantId, flying[i].owner, flying[i].taskId, a) then flying[i].estimate else 0.0)
  {
    if i == 0 {
      assert Without(flying, 0) == flying[1..];
    } else {
      LandedEstimate(flying[1..], i - 1, a);
      assert Without(flying, i)[1..] == Without(flying[1..], i - 1);
    }
  }

  predicate Sized(flying: seq<Flight>, largest: real) {
    forall i :: 0 <= i < |flying| ==> 0.0 <= flying[i].estimate <= largest
  }

  function Times(n: nat, x: real): real {
    n as real * x
  }

  lemma TimesOne(n: nat, x: real)
    ensures Times(n + 1, x) == Times(n, x) + x && Times(0, x) == 0.0
  {
  }

  lemma {:induction false} TimesGrows(n: nat, k: nat, x: real)
    requires n <= k && 0.0 <= x
    ensures Times(n, x) <= Times(k, x)
    decreases k
  {
    hide Times;
    if n < k {
      TimesOne(k - 1, x);
      TimesGrows(n, k - 1, x);
    }
  }

  lemma TimesLarger(n: nat, x: real, y: real)
    requires x <= y
    ensures Times(n, x) <= Times(n, y)
  {
    assert n as real * (y - x) >= 0.0;
  }

  lemma {:induction false} EstimatesBound(flying: seq<Flight>, a: Account, largest: real)
    requires Sized(flying, largest) && 0.0 <= largest
    ensures Estimates(flying, a) <= Times(InFlight(flying, a), largest)
  {
    hide Times;
    TimesOne(0, largest);
    if flying != [] {
      assert Sized(flying[1..], largest);
      EstimatesBound(flying[1..], a, largest);
      TimesOne(InFlight(flying[1..], a), largest);
    }
  }

  lemma {:induction false} SpentBounds(ledger: seq<Row>, a: Account, month: nat)
    requires forall i :: 0 <= i < |ledger| ==> ledger[i].cost >= 0.0
    ensures Spent(ledger, a, month) >= 0.0
    ensures (forall i :: 0 <= i < |ledger| ==> ledger[i].month < month) ==> Spent(ledger, a, month) == 0.0
  {
    if ledger != [] {
      SpentBounds(ledger[..|ledger| - 1], a, month);
    }
  }

  ghost predicate Inv(settings: Settings, s: State, a: Account, k: nat)
    requires k >= 1
  {
    && Sized(s.flying, Largest(settings))
    && (forall i :: 0 <= i < |s.ledger| ==> s.ledger[i].cost >= 0.0 && s.ledger[i].month <= s.month)
    && Spent(s.ledger, a, s.month) + Estimates(s.flying, a) <= Limit(settings, a) + Times(k - 1, Largest(settings))
  }

  /** Whether the check reads the account's spend. */
  predicate Enforced(settings: Settings, a: Account) {
    a.OwnerAccount? || settings.inMemory
  }

  lemma CheckKeeps(settings: Settings, s: State, call: Flight, a: Account, k: nat)
    requires k >= 1 && settings.monthlyCap >= 0.0 && settings.perTaskCap >= 0.0 && Enforced(settings, a)
    requires Inv(settings, s, a, k) && call.estimate >= 0.0 && Passes(settings, s.ledger, s.month, call)
    requires InFlight(s.flying + [call], a) <= k
    ensures Inv(settings, s.(flying := s.flying + [call]), a, k)
  {
    hide Times;
    var m := Largest(settings);
    InFlightAppend(s.flying, call, a);
    SpentBounds(s.ledger, OwnerAccount(call.tenantId, call.owner), s.month);
    if call.taskId.Some? {
      SpentBounds(s.ledger, TaskAccount(call.tenantId, call.taskId.value), s.month);
    }
    assert call.estimate <= m;
    EstimatesBound(s.flying, a, m);
    if Charged(call.tenantId, call.owner, call.taskId, a) {
      TimesGrows(InFlight(s.flying, a), k - 1, m);
      assert Spent(s.ledger, a, s.month) + call.estimate <= Limit(settings, a);
    }
  }

  lemma RecordKeeps(settings: Settings, s: State, i: nat, actual: real, a: Account, k: nat)
    requires k >= 1 && Inv(settings, s, a, k) && i < |s.flying| && 0.0 <= actual <= s.flying[i].estimate
    ensures Inv(settings, Next(settings, s, Record(i, actual)), a, k)
  {
    var row := RowOf(s.flying[i], |s.ledger|, actual, s.month);
    LandedEstimate(s.flying, i, a);
    assert (s.ledger + [row])[..|s.ledger|] == s.ledger;
  }

  lemma MonthKeeps(settings: Settings, s: State, a: Account, k: nat)
    requires k >= 1 && settings.monthlyCap >= 0.0 && settings.perTaskCap >= 0.0
    requires Inv(settings, s, a, k) && InFlight(s.flying, a) <= k
    ensures Inv(settings, s.(month := s.month + 1), a, k)
  {
    var m := Largest(settings);
    SpentBounds(s.ledger, a, s.month + 1);
    EstimatesBound(s.flying, a, m);
    TimesGrows(InFlight(s.flying, a), k, m);
    TimesOne(k - 1, m);
    hide Times;
  }

  lemma StepKeeps(settings: Settings, s: State, step: Step, a: Account, k: nat)
    requires k >= 1 && settings.monthlyCap >= 0.0 && settings.perTaskCap >= 0.0 && Enforced(settings, a)
    requires Inv(settings, s, a, k) && Honest(s, step)
    requires InFlight(s.flying, a) <= k && InFlight(Next(settings, s, step).flying, a) <= k
    ensures Inv(settings, Next(settings, s, step), a, k)
  {
    hide Inv;
    match step
    case Check(call) =>
      if Passes(settings, s.ledger, s.month, call) {
        CheckKeeps(settings, s, call, a, k);
      }
    case Record(i, actual) =>
      if i < |s.flying| {
        RecordKeeps(settings, s, i, actual, a, k);
      }
    case NewMonth => MonthKeeps(settings, s, a, k);
  }

  lemma OrderlyLast(settings: Settings, steps: seq<Step>, a: Account, k: nat)
    requires Orderly(settings, steps, a, k) && steps != []
    ensures var before := steps[..|steps| - 1];
            && Orderly(settings, before, a, k) && Honest(Run(settings, before), steps[|steps| - 1])
            && InFlight(Run(settings, before).flying, a) <= k && InFlight(Run(settings, steps).flying, a) <= k
  {
    hide Run;
  }

  lemma {:induction false} OrderlyKeeps(settings: Settings, steps: seq<Step>, a: Account, k: nat)
    requires k >= 1 && settings.monthlyCap >= 0.0 && settings.perTaskCap >= 0.0 && Enforced(settings, a)
    requires Orderly(settings, steps, a, k)
    ensures Inv(settings, Run(settings, steps), a, k)
  {
    if steps == [] {
      TimesOne(0, Largest(settings));
      TimesGrows(0, k - 1, Largest(settings));
    } else {
      OrderlyLast(settings, steps, a, k);
      OrderlyKeeps(settings, steps[..|steps| - 1], a, k);
      StepKeeps(settings, Run(settings, steps[..|steps| - 1]), steps[|steps| - 1], a, k);
    }
    hide Next;
    hide Times;
    hide Orderly;
  }

  /** With at most k calls of an account in flight, what is spent and what may yet be spent this month
      stays within the account's cap and k - 1 more calls, also across months; alone, within the cap. */
  lemma OverspendBound(settings: Settings, steps: seq<Step>, s: State, a: Account, k: nat)
    requires k >= 1 && settings.monthlyCap >= 0.0 && settings.perTaskCap >= 0.0 && Enforced(settings, a)
    requires Orderly(settings, steps, a, k) && s == Run(settings, steps)
    ensures Spent(s.ledger, a, s.month) + Estimates(s.flying, a)
         <= Limit(settings, a) + Times(k - 1, Largest(settings))
         <= Limit(settings, a) + Times(k - 1, settings.perTaskCap)
    ensures k == 1 ==> Spent(s.ledger, a, s.month) + Estimates(s.flying, a) <= Limit(settings, a)
  {
    OrderlyKeeps(settings, steps, a, k);
    TimesLarger(k - 1, Largest(settings), settings.perTaskCap);
    TimesOne(0, Largest(settings));
    hide Times;
  }

  // ---- The bound is reached ------------------------------------------------------------------

  const OWNER := OwnerAccount("tenant", "owner")

  function Call(estimate: real): Flight {
    Flight("tenant", "owner", None, estimate)
  }

  lemma RunAppend(settings: Settings, steps: seq<Step>, step: Step)
    ensures Run(settings, steps + [step]) == Next(settings, Run(settings, steps), step)
  {
    assert (steps + [step])[..|steps|] == steps;
  }

  lemma OrderlyAppend(settings: Settings, steps: seq<Step>, step: Step, a: Account, k: nat)
    requires Orderly(settings, steps, a, k) && Honest(Run(settings, steps), step)
    requires InFlight(Next(settings, Run(settings, steps), step).flying, a) <= k
    ensures Orderly(settings, steps + [step], a, k)
  {
    RunAppend(settings, steps, step);
    hide Run;
    hide Next;
    hide Honest;
    assert (steps + [step])[..|steps|] == steps;
  }

  /** One call at a time, any amount up to the cap can be spent in a month. */
  lemma {:induction false} SpendUpTo(settings: Settings, target: real, n: nat, k: nat) returns (steps: seq<Step>)
    requires k >= 1 && 0.0 <= target <= settings.monthlyCap && 0.0 < Largest(settings)
    requires target <= Times(n, Largest(settings))
    decreases n
    ensures Orderly(settings, steps, OWNER, k)
    ensures var s := Run(settings, steps); s.flying == [] && s.month == 0 && Spent(s.ledger, OWNER, 0) == target
  {
    hide Times;
    var m := Largest(settings);
    TimesOne(0, m);
    if n == 0 {
      steps := [];
    } else {
      TimesOne(n - 1, m);
      var part := if target < m then 0.0 else target - m;
      TimesGrows(0, n - 1, m);
      steps := SpendUpTo(settings, part, n - 1, k);
      steps := SpendOne(settings, steps, target - part, k);
    }
  }

  lemma SpentAppend(ledger: seq<Row>, row: Row, a: Account, month: nat)
    ensures Spent(ledger + [row], a, month)
         == Spent(ledger, a, month)
            + (if Charged(row.tenantId, row.owner, row.taskId, a) && row.month >= month then row.cost else 0.0)
  {
    assert (ledger + [row])[..|ledger|] == ledger;
  }

  function Landed(s: State, call: Flight): State {
    State(s.ledger + [RowOf(call, |s.ledger|, call.estimate, s.month)], [], s.month)
  }

  /** One call checked and then recorded at its estimate, with nothing else in flight. */
  lemma OneCall(settings: Settings, steps: seq<Step>, call: Flight, a: Account, k: nat) returns (longer: seq<Step>)
    requires k >= 1 && Orderly(settings, steps, a, k) && Run(settings, steps).flying == [] && call.estimate >= 0.0
    requires Passes(settings, Run(settings, steps).ledger, Run(settings, steps).month, call)
    ensures Orderly(settings, longer, a, k)
    ensures Run(settings, longer) == Landed(Run(settings, steps), call)
  {
    hide Run;
    hide Orderly;
    hide Passes;
    var s := Run(settings, steps);
    var s1 := Next(settings, s, Check(call));
    var s2 := Next(settings, s1, Record(0, call.estimate));
    assert s1.flying == [call] && s2.flying == [];
    assert InFlight([call], a) <= 1 by { InFlightAppend([], call, a); assert [] + [call] == [call]; }
    RunAppend(settings, steps, Check(call));
    RunAppend(settings, steps + [Check(call)], Record(0, call.estimate));
    OrderlyAppend(settings, steps, Check(call), a, k);
    OrderlyAppend(settings, steps + [Check(call)], Record(0, call.estimate), a, k);
    longer := steps + [Check(call)] + [Record(0, call.estimate)];
  }

  lemma SpendOne(settings: Settings, steps: seq<Step>, cost: real, k: nat) returns (longer: seq<Step>)
    requires k >= 1 && Orderly(settings, steps, OWNER, k) && 0.0 <= cost <= Largest(settings)
    requires Run(settings, steps).flying == [] && Run(settings, steps).month == 0
    requires Spent(Run(settings, steps).ledger, OWNER, 0) + cost <= settings.monthlyCap
    ensures Orderly(settings, longer, OWNER, k)
    ensures var s := Run(settings, longer);
            && s.flying == [] && s.month == 0
            && Spent(s.ledger, OWNER, 0) == Spent(Run(settings, steps).ledger, OWNER, 0) + cost
  {
    hide Run;
    hide Orderly;
    hide Spent;
    var s := Run(settings, steps);
    longer := OneCall(settings, steps, Call(cost), OWNER, k);
    SpentAppend(s.ledger, RowOf(Call(cost), |s.ledger|, cost, 0), OWNER, 0);
  }

  /** j calls, each of the largest size, are checked before any of them is recorded. */
  lemma {:induction false} CheckMany(settings: Settings, steps: seq<Step>, j: nat, k: nat) returns (longer: seq<Step>)
    requires j <= k && Orderly(settings, steps, OWNER, k) && 0.0 < Largest(settings)
    requires Run(settings, steps).flying == [] && Run(settings, steps).month == 0
    requires Spent(Run(settings, steps).ledger, OWNER, 0) + Largest(settings) <= settings.monthlyCap
    ensures Orderly(settings, longer, OWNER, k)
    ensures var s := Run(settings, longer);
            && s.ledger == Run(settings, steps).ledger && s.month == 0
            && InFlight(s.flying, OWNER) == j && Estimates(s.flying, OWNER) == Times(j, Largest(settings))
  {
    hide Times;
    hide Orderly;
    var m := Largest(settings);
    TimesOne(0, m);
    longer := steps;
    if j > 0 {
      TimesOne(j - 1, m);
      longer := CheckMany(settings, steps, j - 1, k);
      var s := Run(settings, longer);
      InFlightAppend(s.flying, Call(m), OWNER);
      RunAppend(settings, longer, Check(Call(m)));
      OrderlyAppend(settings, longer, Check(Call(m)), OWNER, k);
      longer := longer + [Check(Call(m))];
    }
    hide Run;
  }

  lemma EnoughTimes(x: real, m: real) returns (n: nat)
    requires 0.0 < m && 0.0 <= x
    ensures x <= Times(n, m)
  {
    n := (x / m).Floor + 1;
    assert x / m <= n as real;
    TimesLarger(n, m, m);
    assert x == (x / m) * m;
    assert (n as real - x / m) * m >= 0.0;
  }

  /** For every number of concurrent calls, some run reaches the bound exactly. */
  lemma BoundIsReached(settings: Settings, k: nat) returns (steps: seq<Step>)
    requires k >= 1 && 0.0 < settings.monthlyCap && 0.0 < settings.perTaskCap
    ensures Orderly(settings, steps, OWNER, k)
    ensures var s := Run(settings, steps);
            && s.month == 0
            && Spent(s.ledger, OWNER, 0) + Estimates(s.flying, OWNER)
               == settings.monthlyCap + Times(k - 1, Largest(settings))
  {
    hide Run;
    hide Orderly;
    var m := Largest(settings);
    var n := EnoughTimes(settings.monthlyCap - m, m);
    hide Times;
    steps := SpendUpTo(settings, settings.monthlyCap - m, n, k);
    steps := CheckMany(settings, steps, k, k);
    TimesOne(k - 1, m);
  }

  // ---- The per-task cap ----------------------------------------------------------------------

  const TASK := TaskAccount("tenant", 0)

  function TaskCall(owner: string, estimate: real): Flight {
    Flight("tenant", owner, Some(0), estimate)
  }

  lemma UntrackedStep(settings: Settings, s: State, step: Step, tenantId: string, taskId: Id, month: nat)
    requires step.Check? ==> step.call.taskId.None?
    requires Spent(s.ledger, TaskAccount(tenantId, taskId), month) == 0.0
    requires forall i :: 0 <= i < |s.flying| ==> s.flying[i].taskId.None?
    ensures var s' := Next(settings, s, step);
            && Spent(s'.ledger, TaskAccount(tenantId, taskId), month) == 0.0
            && (forall i :: 0 <= i < |s'.flying| ==> s'.flying[i].taskId.None?)
  {
    hide Passes;
    hide Spent;
    if step.Record? && step.i < |s.flying| {
      SpentAppend(s.ledger, RowOf(s.flying[step.i], |s.ledger|, step.actual, s.month), TaskAccount(tenantId, taskId),
                  month);
    }
  }

  /** Calls made without a task id, as the graph makes them, never count against any task: the per-task cap
      bounds each of them alone. */
  lemma {:induction false} UntrackedTasks(settings: Settings, steps: seq<Step>, tenantId: string, taskId: Id,
                                          month: nat)
    requires forall i :: 0 <= i < |steps| && steps[i].Check? ==> steps[i].call.taskId.None?
    ensures var s := Run(settings, steps);
            && Spent(s.ledger, TaskAccount(tenantId, taskId), month) == 0.0
            && (forall i :: 0 <= i < |s.flying| ==> s.flying[i].taskId.None?)
  {
    if steps != [] {
      UntrackedTasks(settings, steps[..|steps| - 1], tenantId, taskId, month);
      UntrackedStep(settings, Run(settings, steps[..|steps| - 1]), steps[|steps| - 1], tenantId, taskId, month);
    }
    hide Next;
    hide Spent;
  }

  /** The i-th of endlessly many owners. */
  function Owner(i: nat): string {
    if i == 0 then "" else Owner(i - 1) + "x"
  }

  lemma {:induction false} OwnerLength(i: nat)
    ensures |Owner(i)| == i
  {
    if i > 0 {
      OwnerLength(i - 1);
    }
  }

  /** Against SQL, any number of owners can each spend the largest call on one task, one call at a time. */
  lemma {:induction false} ManyOwners(settings: Settings, n: nat) returns (steps: seq<Step>)
    requires !settings.inMemory && 0.0 < Largest(settings)
    ensures Orderly(settings, steps, TASK, 1)
    ensures var s := Run(settings, steps);
            && s.flying == [] && s.month == 0 && Spent(s.ledger, TASK, 0) == Times(n, Largest(settings))
            && forall o :: |o| >= n ==> Spent(s.ledger, OwnerAccount("tenant", o), 0) == 0.0
  {
    hide Times;
    hide Owner;
    var m := Largest(settings);
    TimesOne(0, m);
    steps := [];
    if n > 0 {
      TimesOne(n - 1, m);
      OwnerLength(n - 1);
      steps := ManyOwners(settings, n - 1);
      steps := SpendTask(settings, steps, Owner(n - 1), m);
      hide Run;
      hide Orderly;
    }
  }

  lemma SqlOverspendsTask(settings: Settings) returns (steps: seq<Step>)
    requires !settings.inMemory && 0.0 < Largest(settings)
    ensures Orderly(settings, steps, TASK, 1)
    ensures Spent(Run(settings, steps).ledger, TASK, Run(settings, steps).month) > settings.perTaskCap
  {
    var m := Largest(settings);
    var n := EnoughTimes(settings.perTaskCap, m);
    TimesOne(n, m);
    hide Times;
    steps := ManyOwners(settings, n + 1);
    hide Run;
    hide Orderly;
  }

  ghost predicate AllZero(s: State) {
    && (forall i :: 0 <= i < |s.flying| ==> s.flying[i].estimate == 0.0)
    && (forall i :: 0 <= i < |s.ledger| ==> s.ledger[i].cost == 0.0)
  }

  lemma ZeroStep(settings: Settings, s: State, step: Step)
    requires Largest(settings) <= 0.0 && AllZero(s) && Honest(s, step)
    ensures AllZero(Next(settings, s, step))
  {
    if step.Check? {
      SpentBounds(s.ledger, OwnerAccount(step.call.tenantId, step.call.owner), s.month);
      if step.call.taskId.Some? {
        SpentBounds(s.ledger, TaskAccount(step.call.tenantId, step.call.taskId.value), s.month);
      }
      hide Spent;
    }
  }

  /** When one of the caps lets nothing through, nothing is ever spent. */
  lemma {:induction false} NothingSpent(settings: Settings, steps: seq<Step>, a: Account, k: nat)
    requires Largest(settings) <= 0.0 && Orderly(settings, steps, a, k)
    ensures AllZero(Run(settings, steps))
  {
    if steps != [] {
      OrderlyLast(settings, steps, a, k);
      NothingSpent(settings, steps[..|steps| - 1], a, k);
      ZeroStep(settings, Run(settings, steps[..|steps| - 1]), steps[|steps| - 1]);
    }
    hide Orderly;
    hide Next;
    hide AllZero;
  }

  lemma {:induction false} ZeroLedger(ledger: seq<Row>, a: Account, month: nat)
    requires forall i :: 0 <= i < |ledger| ==> ledger[i].cost == 0.0
    ensures Spent(ledger, a, month) == 0.0
  {
    if ledger != [] {
      ZeroLedger(ledger[..|ledger| - 1], a, month);
    }
  }

  lemma {:induction false} ZeroFlying(flying: seq<Flight>, a: Account)
    requires forall i :: 0 <= i < |flying| ==> flying[i].estimate == 0.0
    ensures Estimates(flying, a) == 0.0
  {
    if flying != [] {
      ZeroFlying(flying[1..], a);
    }
  }

  lemma SpendTask(settings: Settings, steps: seq<Step>, owner: string, m: real) returns (longer: seq<Step>)
    requires !settings.inMemory && Run(settings, steps).flying == [] && Run(settings, steps).month == 0
    requires Orderly(settings, steps, TASK, 1) && 0.0 <= m <= settings.perTaskCap
    requires Spent(Run(settings, steps).ledger, OwnerAccount("tenant", owner), 0) + m <= settings.monthlyCap
    ensures var s, s' := Run(settings, steps), Run(settings, longer);
            && s'.flying == [] && s'.month == 0 && Orderly(settings, longer, TASK, 1)
            && Spent(s'.ledger, TASK, 0) == Spent(s.ledger, TASK, 0) + m
            && forall o :: o != owner ==>
                 Spent(s'.ledger, OwnerAccount("tenant", o), 0) == Spent(s.ledger, OwnerAccount("tenant", o), 0)
  {
    hide Run;
    hide Orderly;
    hide Spent;
    var s, call := Run(settings, steps), TaskCall(owner, m);
    var row := RowOf(call, |s.ledger|, m, 0);
    longer := OneCall(settings, steps, call, TASK, 1);
    SpentAppend(s.ledger, row, TASK, 0);
    forall o | o != owner
      ensures Spent(s.ledger + [row], OwnerAccount("tenant", o), 0) == Spent(s.ledger, OwnerAccount("tenant", o), 0)
    {
      SpentAppend(s.ledger, row, OwnerAccount("tenant", o), 0);
    }
  }

  ghost predicate TaskWithinCap(settings: Settings, steps: seq<Step>) {
    var s := Run(settings, steps);
    Spent(s.ledger, TASK, s.month) + Estimates(s.flying, TASK) <= settings.perTaskCap
  }

  lemma TaskBound(settings: Settings, steps: seq<Step>)
    requires Orderly(settings, steps, TASK, 1)
    requires settings.perTaskCap >= 0.0 && (settings.inMemory || Largest(settings) <= 0.0)
    ensures TaskWithinCap(settings, steps)
  {
    hide Run;
    hide Orderly;
    var s := Run(settings, steps);
    if Largest(settings) <= 0.0 {
      NothingSpent(settings, steps, TASK, 1);
      ZeroLedger(s.ledger, TASK, s.month);
      ZeroFlying(s.flying, TASK);
    } else {
      OverspendBound(settings, steps, s, TASK, 1);
    }
  }

  /** One call at a time, for any settings, a task's spend stays within the per-task cap in every run exactly
      when that cap is not negative and either the ledger is the in-memory one or no call with a cost passes. */
  lemma TaskCapIff(settings: Settings)
    ensures (forall steps :: Orderly(settings, steps, TASK, 1) ==> TaskWithinCap(settings, steps))
       <==> settings.perTaskCap >= 0.0 && (settings.inMemory || Largest(settings) <= 0.0)
  {
    hide Run;
    hide Orderly;
    if settings.perTaskCap < 0.0 {
      NoSteps(settings);
    } else if settings.inMemory || Largest(settings) <= 0.0 {
      forall steps | Orderly(settings, steps, TASK, 1) ensures TaskWithinCap(settings, steps) {
        TaskBound(settings, steps);
      }
    } else {
      var steps := SqlOverspendsTask(settings);
      EstimatesAfter(settings, steps);
      assert !TaskWithinCap(settings, steps);
    }
  }

  lemma NoSteps(settings: Settings)
    ensures Orderly(settings, [], TASK, 1) && (TaskWithinCap(settings, []) <==> settings.perTaskCap >= 0.0)
  {
  }

  lemma EstimatesAfter(settings: Settings, steps: seq<Step>)
    requires Orderly(settings, steps, TASK, 1)
    ensures Estimates(Run(settings, steps).flying, TASK) >= 0.0
  {
    var s := Run(settings, steps);
    FlyingNonNegative(settings, steps, TASK, 1);
    NonNegative(s.flying, TASK);
  }

  lemma {:induction false} NonNegative(flying: seq<Flight>, a: Account)
    requires forall i :: 0 <= i < |flying| ==> flying[i].estimate >= 0.0
    ensures Estimates(flying, a) >= 0.0
  {
    if flying != [] {
      NonNegative(flying[1..], a);
    }
  }

  lemma {:induction false} FlyingNonNegative(settings: Settings, steps: seq<Step>, a: Account, k: nat)
    requires Orderly(settings, steps, a, k)
    ensures forall i :: 0 <= i < |Run(settings, steps).flying| ==> Run(settings, steps).flying[i].estimate >= 0.0
  {
    if steps != [] {
      OrderlyLast(settings, steps, a, k);
      FlyingNonNegative(settings, steps[..|steps| - 1], a, k);
    }
    hide Orderly;
  }
}
