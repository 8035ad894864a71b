/** The admission counters under concurrency: any number of requests in flight, their effects
    interleaved in any order. */
module Counters {
  import opened MapSums
  import opened Admission
  import opened Mediation

  /** A request in flight and how many of its effects have happened. */
  datatype Running = Running(call: Call, pc: nat)

  /** `done` counts every effect so far; the five metrics are its entries for the counting effects. */
  datatype State = State(calls: map<int, Running>, done: multiset<Op>)

  datatype Event = Begin(id: int, call: Call) | Exec(id: int)

  ghost predicate Enabled(mode: Mode, s: State, e: Event) {
    match e
    case Begin(id, _) => id !in s.calls
    case Exec(id) => id in s.calls && s.calls[id].pc < |Trace(mode, s.calls[id].call)|
  }

  ghost function Next(mode: Mode, s: State, e: Event): State
    requires Enabled(mode, s, e)
  {
    match e
    case Begin(id, call) => s.(calls := s.calls[id := Running(call, 0)])
    case Exec(id) =>
      var r := s.calls[id];
      State(s.calls[id := r.(pc := r.pc + 1)], s.done + multiset{Trace(mode, r.call)[r.pc]})
  }

  ghost predicate IsRun(mode: Mode, states: seq<State>, events: seq<Event>) {
    && |states| == |events| + 1 && states[0] == State(map[], multiset{})
    && forall i :: 0 <= i < |events| ==>
         Enabled(mode, states[i], events[i]) && states[i + 1] == Next(mode, states[i], events[i])
  }

  /** How often the request has had the effect. */
  ghost function Share(mode: Mode, r: Running, op: Op): nat {
    var t := Trace(mode, r.call);
    if r.pc <= |t| then Times(t[..r.pc], op) else 0
  }

  ghost function Shares(mode: Mode, s: State, op: Op): map<int, int> {
    map id | id in s.calls :: Share(mode, s.calls[id], op)
  }

  /** No request runs past its end. */
  ghost predicate InPlace(mode: Mode, s: State) {
    forall id <- s.calls :: s.calls[id].pc <= |Trace(mode, s.calls[id].call)|
  }

  ghost predicate Inv(mode: Mode, s: State) {
    && (forall op :: s.done[op] == Sum(Shares(mode, s, op)))
    && InPlace(mode, s)
  }

  lemma ShareGrows(mode: Mode, r: Running, op: Op)
    requires r.pc < |Trace(mode, r.call)|
    ensures Share(mode, r.(pc := r.pc + 1), op) ==
            Share(mode, r, op) + if Trace(mode, r.call)[r.pc] == op then 1 else 0
  {
    TimesNext(Trace(mode, r.call), r.pc, op);
  }

  lemma TimesNext(t: seq<Op>, pc: nat, op: Op)
    requires pc < |t|
    ensures Times(t[..pc + 1], op) == Times(t[..pc], op) + if t[pc] == op then 1 else 0
  {
    assert t[..pc + 1] == t[..pc] + [t[pc]];
    TimesAppend(t[..pc], t[pc], op);
  }

  lemma EventKeeps(mode: Mode, s: State, e: Event)
    requires Inv(mode, s) && Enabled(mode, s, e)
    ensures Inv(mode, Next(mode, s, e))
  {
    forall op { DoneKept(mode, s, e, op); }
    PlacesKept(mode, s, e);
  }

  lemma PlacesKept(mode: Mode, s: State, e: Event)
    requires InPlace(mode, s) && Enabled(mode, s, e)
    ensures InPlace(mode, Next(mode, s, e))
  {}

  /** One effect's count follows the requests' shares of it. */
  lemma DoneKept(mode: Mode, s: State, e: Event, op: Op)
    requires Enabled(mode, s, e) && s.done[op] == Sum(Shares(mode, s, op))
    ensures Next(mode, s, e).done[op] == Sum(Shares(mode, Next(mode, s, e), op))
  {
    match e
    case Begin(id, call) =>
      NothingYet(mode, call, op);
      SharesChange(mode, s, id, Running(call, 0), op);
    case Exec(id) =>
      ShareGrows(mode, s.calls[id], op);
      SharesChange(mode, s, id, s.calls[id].(pc := s.calls[id].pc + 1), op);
  }

  lemma NothingYet(mode: Mode, call: Call, op: Op)
    ensures Share(mode, Running(call, 0), op) == 0
  {
    assert Trace(mode, call)[..0] == [];
  }

  lemma SharesChange(mode: Mode, s: State, id: int, r: Running, op: Op)
    ensures Sum(Shares(mode, s.(calls := s.calls[id := r]), op)) ==
            Sum(Shares(mode, s, op)) + Share(mode, r, op) - if id in s.calls then Share(mode, s.calls[id], op) else 0
  {
    SumChange(Shares(mode, s, op), Shares(mode, s.(calls := s.calls[id := r]), op), id);
  }

  lemma {:induction false} RunInv(mode: Mode, states: seq<State>, events: seq<Event>, n: nat)
    requires IsRun(mode, states, events) && n <= |events|
    ensures Inv(mode, states[n])
  {
    if n == 0 {
      forall op { SumZero(Shares(mode, states[0], op)); }
    } else {
      RunInv(mode, states, events, n - 1);
      EventKeeps(mode, states[n - 1], events[n - 1]);
    }
  }

  /** Every request has been answered. */
  ghost predicate Quiescent(mode: Mode, s: State) {
    forall id <- s.calls :: s.calls[id].pc == |Trace(mode, s.calls[id].call)|
  }

  /** The counts of one finished request. */
  lemma FinishedShare(mode: Mode, r: Running, op: Op)
    requires r.pc == |Trace(mode, r.call)|
    ensures Share(mode, r, op) == Times(Trace(mode, r.call), op)
  {
    var t := Trace(mode, r.call);
    assert t[..|t|] == t;
  }

  /** What holds of every balanced request holds of their totals. */
  lemma SharesOrdered(mode: Mode, s: State, small: Op, large: Op)
    requires Inv(mode, s) && Quiescent(mode, s)
    requires forall t | Balanced(t) :: Times(t, small) <= Times(t, large)
    ensures s.done[small] <= s.done[large]
  {
    var a, b := Shares(mode, s, small), Shares(mode, s, large);
    forall id ensures Get(a, id) <= Get(b, id) {
      if id in s.calls {
        TraceBalanced(mode, s.calls[id].call);
        FinishedShare(mode, s.calls[id], small);
        FinishedShare(mode, s.calls[id], large);
      }
    }
    SumMono(a, b);
  }

  lemma AuditedAccountedFor(mode: Mode, s: State)
    requires Inv(mode, s) && Quiescent(mode, s)
    ensures s.done[CountAudited] == s.done[CountAllowed] + s.done[CountDenied] + s.done[Forward(Bypassed)]
  {
    var allowed, denied := Shares(mode, s, CountAllowed), Shares(mode, s, CountDenied);
    var answered := map id | id in s.calls :: allowed[id] + denied[id];
    SumAdd(allowed, denied, answered);
    forall id
      ensures Get(Shares(mode, s, CountAudited), id) == Get(answered, id) + Get(Shares(mode, s, Forward(Bypassed)), id)
    {
      if id in s.calls {
        TraceBalanced(mode, s.calls[id].call);
        forall op { FinishedShare(mode, s.calls[id], op); }
      }
    }
    SumAdd(answered, Shares(mode, s, Forward(Bypassed)), Shares(mode, s, CountAudited));
  }

  /** Conservation: whenever no request is under way, whatever the interleaving was, every audited
      write has been allowed, denied or bypassed, and every accounting error shows in the counter of
      the answer it led to. */
  lemma CountersBalance(mode: Mode, states: seq<State>, events: seq<Event>, n: nat)
    requires IsRun(mode, states, events) && n <= |events| && Quiescent(mode, states[n])
    ensures var done := states[n].done;
            && done[CountAudited] == done[CountAllowed] + done[CountDenied] + done[Forward(Bypassed)]
            && done[CountFailOpen] <= done[CountAllowed]
            && done[CountFailShut] <= done[CountDenied]
            && done[CountAllowed] == done[Forward(Admitted)] && done[CountDenied] == done[Reject]
  {
    RunInv(mode, states, events, n);
    var s := states[n];
    AuditedAccountedFor(mode, s);
    SharesOrdered(mode, s, CountFailOpen, CountAllowed);
    SharesOrdered(mode, s, CountFailShut, CountDenied);
    SharesOrdered(mode, s, CountAllowed, Forward(Admitted));
    SharesOrdered(mode, s, Forward(Admitted), CountAllowed);
    SharesOrdered(mode, s, CountDenied, Reject);
    SharesOrdered(mode, s, Reject, CountDenied);
  }
}
