/** Half-open accounting of the connection registry, and the bootstrap decision
    that gives a new source to one responder. The class's methods each run under
    the registry lock; the step system below interleaves them. */
module Registry {
  type Source = nat
  type Id = nat

  datatype State = State(maxHalfOpen: nat, halfOpen: map<Source, nat>, total: int, bySource: map<Source, Id>)

  /** The outcome of a reservation: won, an existing owner, or full. */
  datatype Reserved = Won | Existing(id: Id) | Full

  function CountOf(r: State, s: Source): nat { if s in r.halfOpen then r.halfOpen[s] else 0 }

  function Admitted(r: State, s: Source): State
  {
    r.(halfOpen := r.halfOpen[s := CountOf(r, s) + 1], total := r.total + 1)
  }

  function Released(r: State, s: Source): State
  {
    var n := CountOf(r, s);
    if n == 0 then r
    else r.(halfOpen := if n > 1 then r.halfOpen[s := n - 1] else r.halfOpen - {s}, total := r.total - 1)
  }

  function ReserveFor(r: State, s: Source, id: Id): (State, Reserved)
  {
    if s in r.bySource then (r, Existing(r.bySource[s]))
    else if r.total >= r.maxHalfOpen then (r, Full)
    else (Admitted(r, s).(bySource := r.bySource[s := id]), Won)
  }

  function Removed(r: State, s: Source): State { r.(bySource := r.bySource - {s}) }

  // ---- sums over maps ----

  ghost function AnyKey(m: map<Source, nat>): (k: Source)
    requires m.Keys != {}
    ensures k in m
  {
    var k :| k in m.Keys; k
  }

  ghost function Sum(m: map<Source, nat>): nat
    decreases |m.Keys|
  {
    if m.Keys == {} then 0 else m[AnyKey(m)] + Sum(Without(m, AnyKey(m)))
  }

  function Without(m: map<Source, nat>, k: Source): (r: map<Source, nat>)
    ensures r.Keys == m.Keys - {k}
    ensures forall x :: x in r ==> r[x] == m[x]
  {
    m - {k}
  }

  /** Any key may be taken out first. */
  lemma {:induction false} SumPick(m: map<Source, nat>, k: Source)
    requires k in m
    ensures Sum(m) == m[k] + Sum(Without(m, k))
    decreases |m.Keys|
  {
    var j := AnyKey(m);
    if j != k {
      SumPick(Without(m, j), k);
      SumPick(Without(m, k), j);
      WithoutBoth(m, j, k);
    }
  }

  lemma WithoutBoth(m: map<Source, nat>, j: Source, k: Source)
    ensures Without(Without(m, j), k) == Without(Without(m, k), j)
  {}

  lemma SumPut(m: map<Source, nat>, k: Source, v: nat)
    ensures Sum(m[k := v]) == Sum(m) - (if k in m then m[k] else 0) + v
  {
    SumPick(m[k := v], k);
    assert Without(m[k := v], k) == Without(m, k);
    if k in m { SumPick(m, k); } else { assert Without(m, k) == m; }
  }

  // ---- accounting ----

  /** The total is the sum of the counts, stored counts are positive, and the
      total keeps the ceiling. */
  ghost predicate Accounted(r: State)
  {
    && r.total == Sum(r.halfOpen)
    && (forall s :: s in r.halfOpen ==> r.halfOpen[s] > 0)
    && r.total <= r.maxHalfOpen
  }

  lemma AdmittedAccounted(r: State, s: Source)
    requires Accounted(r) && r.total < r.maxHalfOpen
    ensures Accounted(Admitted(r, s))
  {
    SumPut(r.halfOpen, s, CountOf(r, s) + 1);
  }

  lemma ReleasedAccounted(r: State, s: Source)
    requires Accounted(r)
    ensures Accounted(Released(r, s))
    ensures CountOf(Released(r, s), s) == if CountOf(r, s) > 0 then CountOf(r, s) - 1 else 0
  {
    if s in r.halfOpen {
      SumPick(r.halfOpen, s);
      SumPut(r.halfOpen, s, r.halfOpen[s] - 1);
    }
  }

  // ---- the object ----

  class ConnRegistry {
    const maxHalfOpen: nat
    var halfOpen: map<Source, nat>
    var halfOpenTotal: int
    var bySource: map<Source, Id>

    function Value(): State
      reads this
    {
      State(maxHalfOpen, halfOpen, halfOpenTotal, bySource)
    }

    constructor (maxHalfOpen: nat)
      ensures Value() == State(maxHalfOpen, map[], 0, map[]) && Accounted(Value())
    {
      this.maxHalfOpen := maxHalfOpen;
      halfOpen, halfOpenTotal, bySource := map[], 0, map[];
    }

    method AddHalfOpenLocked(source: Source) returns (ok: bool)
      requires Accounted(Value())
      modifies this
      ensures Accounted(Value())
      ensures ok == (old(halfOpenTotal) < maxHalfOpen)
      ensures Value() == if ok then Admitted(old(Value()), source) else old(Value())
    {
      if halfOpenTotal >= maxHalfOpen {
        return false;
      }
      AdmittedAccounted(Value(), source);
      halfOpen := halfOpen[source := (if source in halfOpen then halfOpen[source] else 0) + 1];
      halfOpenTotal := halfOpenTotal + 1;
      return true;
    }

    method ReleaseHalfOpen(source: Source)
      requires Accounted(Value())
      modifies this
      ensures Accounted(Value()) && Value() == Released(old(Value()), source)
    {
      ReleasedAccounted(Value(), source);
      var n := if source in halfOpen then halfOpen[source] else 0;
      if n == 0 {
        return;
      }
      if n > 1 {
        halfOpen := halfOpen[source := n - 1];
      } else {
        halfOpen := halfOpen - {source};
      }
      halfOpenTotal := halfOpenTotal - 1;
    }

    /** `id` names the session that would be built. */
    method ReserveSource(source: Source, id: Id) returns (r: Reserved)
      requires Accounted(Value())
      modifies this
      ensures Accounted(Value()) && (Value(), r) == ReserveFor(old(Value()), source, id)
    {
      if source in bySource {
        return Existing(bySource[source]);
      }
      var ok := AddHalfOpenLocked(source);
      if !ok {
        return Full;
      }
      bySource := bySource[source := id];
      return Won;
    }

    method RemoveSource(source: Source)
      modifies this
      ensures Value() == Removed(old(Value()), source)
    {
      bySource := bySource - {source};
    }

    method SourceOwner(source: Source, id: Id) returns (b: bool)
      ensures b <==> forall other :: ReserveFor(Value(), source, other).1 == Existing(id)
    {
      assert ReserveFor(Value(), source, id).1 == Existing(id) <==> source in bySource && bySource[source] == id;
      return source in bySource && bySource[source] == id;
    }
  }

  // ---- interleaved bootstraps ----

  /** A responder owns its source from the reservation until it removes the
      mapping, and holds its slot until it then releases it; the two happen under
      separate locks. */
  datatype Stage = Owning | Leaving | Gone
  datatype Responder = Responder(source: Source, stage: Stage)

  datatype System = System(r: State, responders: map<Id, Responder>)

  datatype Step =
    | Reserve(source: Source, id: Id)
    | Leave(id: Id)
    | Free(id: Id)
    | DialLeave(source: Source)
    | DialFree(source: Source)

  /** Some responder still holds a slot of the source. */
  predicate InProgress(s: System, source: Source)
  {
    exists id :: id in s.responders && s.responders[id].source == source && !s.responders[id].stage.Gone?
  }

  predicate Enabled(s: System, step: Step)
  {
    match step
    case Reserve(_, id) => id !in s.responders
    case Leave(id) => id in s.responders && s.responders[id].stage.Owning?
    case Free(id) => id in s.responders && s.responders[id].stage.Leaving?
    case DialLeave(_) => true
    case DialFree(_) => true
  }

  function Next(s: System, step: Step): System
    requires Enabled(s, step)
  {
    match step
    case Reserve(source, id) =>
      var (r, won) := ReserveFor(s.r, source, id);
      s.(r := r, responders := if won.Won? then s.responders[id := Responder(source, Owning)] else s.responders)
    case Leave(id) =>
      var x := s.responders[id];
      s.(r := Removed(s.r, x.source), responders := s.responders[id := x.(stage := Leaving)])
    case Free(id) =>
      var x := s.responders[id];
      s.(r := Released(s.r, x.source), responders := s.responders[id := x.(stage := Gone)])
    case DialLeave(source) => s.(r := Removed(s.r, source))
    case DialFree(source) => s.(r := Released(s.r, source))
  }

  function Holders(s: System, source: Source): set<Id>
  {
    set id | id in s.responders && s.responders[id].source == source && !s.responders[id].stage.Gone?
  }

  function Unfinished(s: System): set<Id> { set id | id in s.responders && !s.responders[id].stage.Gone? }

  predicate Owns(s: System, id: Id) { id in s.responders && s.responders[id].stage.Owning? }

  /** The accounting holds, and the registry names exactly the responders that own a source. */
  ghost predicate Ownership(s: System)
  {
    && Accounted(s.r)
    && (forall id :: id in s.responders && s.responders[id].stage.Owning? ==>
          s.responders[id].source in s.r.bySource && s.r.bySource[s.responders[id].source] == id)
    && (forall source :: source in s.r.bySource ==>
          && s.r.bySource[source] in s.responders
          && s.responders[s.r.bySource[source]] == Responder(source, Owning))
  }

  /** The count of a source is the number of responders still holding a slot for
      it, and the total is the number of all that do. */
  ghost predicate Counted(s: System)
  {
    && s.r.total == |Unfinished(s)|
    && forall source :: CountOf(s.r, source) == |Holders(s, source)|
  }

  predicate Run(s: System, steps: seq<Step>)
    decreases |steps|
  {
    steps != [] ==> Enabled(s, steps[0]) && Run(Next(s, steps[0]), steps[1..])
  }

  function End(s: System, steps: seq<Step>): System
    requires Run(s, steps)
    decreases |steps|
  {
    if steps == [] then s else End(Next(s, steps[0]), steps[1..])
  }

  /** No dial in the run lets go of an address a responder owns. */
  predicate SparesOwners(s: System, steps: seq<Step>)
    requires Run(s, steps)
    decreases |steps|
  {
    steps != [] ==>
      && (steps[0].DialLeave? ==> steps[0].source !in s.r.bySource)
      && SparesOwners(Next(s, steps[0]), steps[1..])
  }

  /** No dial in the run frees a slot at an address with a responder in progress. */
  predicate SparesSlots(s: System, steps: seq<Step>)
    requires Run(s, steps)
    decreases |steps|
  {
    steps != [] ==>
      && (steps[0].DialFree? ==> !InProgress(s, steps[0].source))
      && SparesSlots(Next(s, steps[0]), steps[1..])
  }

  function Initial(maxHalfOpen: nat): System { System(State(maxHalfOpen, map[], 0, map[]), map[]) }

  // ---- one owner per source ----

  lemma ReserveOwned(s: System, source: Source, id: Id)
    requires Ownership(s) && Enabled(s, Reserve(source, id))
    ensures Ownership(Next(s, Reserve(source, id)))
  {
    hide Accounted;
    if ReserveFor(s.r, source, id).1.Won? {
      AdmittedAccounted(s.r, source);
      AccountedFrame(Admitted(s.r, source), s.r.bySource[source := id]);
    }
  }

  lemma AccountedFrame(r: State, owners: map<Source, Id>)
    requires Accounted(r)
    ensures Accounted(r.(bySource := owners))
  {}

  /** Every step but the end of a dial keeps ownership; the end of a dial keeps it
      exactly when nobody owns the address. */
  lemma OwnershipStep(s: System, step: Step)
    requires Ownership(s) && Enabled(s, step)
    ensures Ownership(Next(s, step)) <==> (step.DialLeave? ==> step.source !in s.r.bySource)
  {
    match step {
      case Reserve(source, id) =>
        ReserveOwned(s, source, id);
      case Leave(_) =>
      case Free(id) => ReleasedAccounted(s.r, s.responders[id].source);
      case DialLeave(source) =>
        if source in s.r.bySource {
          assert Owns(Next(s, step), s.r.bySource[source]);
        }
      case DialFree(source) => ReleasedAccounted(s.r, source);
    }
  }

  lemma {:induction false} OwnershipRun(s: System, steps: seq<Step>)
    requires Ownership(s) && Run(s, steps) && SparesOwners(s, steps)
    ensures Ownership(End(s, steps))
    decreases |steps|
  {
    if steps != [] {
      OwnershipStep(s, steps[0]);
      OwnershipRun(Next(s, steps[0]), steps[1..]);
    }
  }

  /** Over every run in which no dial lets go of an owned address, whatever else
      dials do: the accounting holds, a source has one owner at a time, and a
      reservation of an owned source never wins but is given the owner. */
  lemma OneWinnerPerSource(max: nat, steps: seq<Step>, i: Id, j: Id)
    requires Run(Initial(max), steps) && SparesOwners(Initial(max), steps)
    ensures var s := End(Initial(max), steps);
            && Accounted(s.r)
            && (Owns(s, i) && Owns(s, j) && s.responders[i].source == s.responders[j].source ==> i == j)
            && (Owns(s, i) ==> ReserveFor(s.r, s.responders[i].source, j).1 == Existing(i))
  {
    OwnershipRun(Initial(max), steps);
  }

  /** The condition is exact: from any state where a source is owned, a dial to that
      address ending lets the next reservation win beside the first owner, unless
      the registry is full. */
  lemma DialGivesSourceAway(s: System, owner: Id, id: Id)
    requires Ownership(s) && Owns(s, owner) && id !in s.responders
    ensures var source := s.responders[owner].source;
            var t := Next(Next(s, DialLeave(source)), Reserve(source, id));
            && !Ownership(Next(s, DialLeave(source)))
            && t.responders[owner] == s.responders[owner]
            && (s.r.total < s.r.maxHalfOpen ==> id in t.responders && t.responders[id] == Responder(source, Owning))
  {
    OwnershipStep(s, DialLeave(s.responders[owner].source));
  }

  /** Three steps from the start reach two owners of one source. */
  lemma TwoOwners(max: nat, source: Source, i: Id, j: Id)
    requires max >= 2 && i != j
    ensures var steps := [Reserve(source, i), DialLeave(source), Reserve(source, j)];
            && Run(Initial(max), steps)
            && Owns(End(Initial(max), steps), i) && Owns(End(Initial(max), steps), j)
            && End(Initial(max), steps).responders[i].source == End(Initial(max), steps).responders[j].source
  {
    var steps := [Reserve(source, i), DialLeave(source), Reserve(source, j)];
    var s := Next(Initial(max), steps[0]);
    var t := Next(s, steps[1]);
    assert steps[1..] == [steps[1], steps[2]] && steps[1..][1..] == [steps[2]] && [steps[2]][1..] == [];
    assert Run(Next(t, steps[2]), []) && Run(t, [steps[2]]) && Run(s, steps[1..]);
    assert End(s, steps[1..]) == End(t, [steps[2]]) == Next(t, steps[2]);
  }

  // ---- one slot per responder in progress ----

  lemma SizeWith(a: set<Id>, b: set<Id>, id: Id)
    requires a - {id} == b - {id}
    ensures |b| == |a| + (if id in b then 1 else 0) - (if id in a then 1 else 0)
  {
    assert id in a ==> a == (a - {id}) + {id};
    assert id in b ==> b == (b - {id}) + {id};
    assert id !in a ==> a == a - {id};
    assert id !in b ==> b == b - {id};
  }

  lemma HoldersWith(s: System, t: System, id: Id, x: Responder, source: Source)
    requires t.responders == s.responders[id := x]
    ensures |Holders(t, source)| == |Holders(s, source)|
            + (if x.source == source && !x.stage.Gone? then 1 else 0)
            - (if id in Holders(s, source) then 1 else 0)
    ensures |Unfinished(t)| == |Unfinished(s)| + (if x.stage.Gone? then 0 else 1) - (if id in Unfinished(s) then 1 else 0)
  {
    SizeWith(Holders(s, source), Holders(t, source), id);
    SizeWith(Unfinished(s), Unfinished(t), id);
  }

  lemma ReserveCounted(s: System, source: Source, id: Id)
    requires Counted(s) && id !in s.responders
    ensures Counted(Next(s, Reserve(source, id)))
  {
    var t := Next(s, Reserve(source, id));
    if ReserveFor(s.r, source, id).1.Won? {
      HoldersWith(s, t, id, Responder(source, Owning), source);
      forall x ensures CountOf(t.r, x) == |Holders(t, x)| { HoldersWith(s, t, id, Responder(source, Owning), x); }
    }
  }

  lemma LeaveCounted(s: System, id: Id)
    requires Counted(s) && Enabled(s, Leave(id))
    ensures Counted(Next(s, Leave(id)))
  {
    var t := Next(s, Leave(id));
    HoldersWith(s, t, id, t.responders[id], t.responders[id].source);
    forall x ensures CountOf(t.r, x) == |Holders(t, x)| { HoldersWith(s, t, id, t.responders[id], x); }
  }

  lemma FreeCounted(s: System, id: Id)
    requires Accounted(s.r) && Counted(s) && Enabled(s, Free(id))
    ensures Counted(Next(s, Free(id)))
  {
    var t := Next(s, Free(id));
    var source := s.responders[id].source;
    assert id in Holders(s, source);
    assert CountOf(s.r, source) == |Holders(s, source)|;
    HoldersWith(s, t, id, t.responders[id], source);
    forall x ensures CountOf(t.r, x) == |Holders(t, x)| {
      assert CountOf(s.r, x) == |Holders(s, x)|;
      HoldersWith(s, t, id, t.responders[id], x);
    }
  }

  /** A slot freed by a dial keeps the counts exactly when no responder is in
      progress at the address. */
  lemma DialCounted(s: System, source: Source)
    requires Accounted(s.r) && Counted(s)
    ensures Counted(Next(s, DialFree(source))) <==> !InProgress(s, source)
  {
    var t := Next(s, DialFree(source));
    assert InProgress(s, source) <==> Holders(s, source) != {} by {
      if InProgress(s, source) {
        var id :| id in s.responders && s.responders[id].source == source && !s.responders[id].stage.Gone?;
        assert id in Holders(s, source);
      }
    }
    assert CountOf(s.r, source) == |Holders(s, source)|;
    forall x ensures Holders(t, x) == Holders(s, x) && CountOf(s.r, x) == |Holders(s, x)| {}
    if InProgress(s, source) {
      assert CountOf(t.r, source) != |Holders(t, source)|;
    } else {
      assert t == s;
    }
  }

  /** Every step but a freed slot keeps the counts, a dial letting go of a source included. */
  lemma CountedStep(s: System, step: Step)
    requires Accounted(s.r) && Counted(s) && Enabled(s, step)
    ensures Accounted(Next(s, step).r)
    ensures Counted(Next(s, step)) <==> (step.DialFree? ==> !InProgress(s, step.source))
  {
    match step {
      case Reserve(source, id) =>
        if ReserveFor(s.r, source, id).1.Won? {
          AdmittedAccounted(s.r, source);
        }
        ReserveCounted(s, source, id);
      case Leave(id) => LeaveCounted(s, id);
      case Free(id) =>
        ReleasedAccounted(s.r, s.responders[id].source);
        FreeCounted(s, id);
      case DialLeave(source) =>
        assert Unfinished(Next(s, step)) == Unfinished(s);
        forall x ensures CountOf(Next(s, step).r, x) == |Holders(Next(s, step), x)| {
          assert CountOf(s.r, x) == |Holders(s, x)|;
          assert Holders(Next(s, step), x) == Holders(s, x);
        }
      case DialFree(source) =>
        ReleasedAccounted(s.r, source);
        DialCounted(s, source);
    }
  }

  lemma {:induction false} CountedRun(s: System, steps: seq<Step>)
    requires Accounted(s.r) && Counted(s) && Run(s, steps) && SparesSlots(s, steps)
    ensures Accounted(End(s, steps).r) && Counted(End(s, steps))
    decreases |steps|
  {
    if steps != [] {
      CountedStep(s, steps[0]);
      CountedRun(Next(s, steps[0]), steps[1..]);
    }
  }

  /** Over every run in which no dial frees a slot under a responder in progress:
      the count of every source is the number of responders holding a slot for it,
      and no more responders than the bound are in progress at once. */
  lemma CountsAreHolders(max: nat, steps: seq<Step>, source: Source)
    requires Run(Initial(max), steps) && SparesSlots(Initial(max), steps)
    ensures var s := End(Initial(max), steps);
            && Accounted(s.r)
            && CountOf(s.r, source) == |Holders(s, source)|
            && |Unfinished(s)| == s.r.total <= max
  {
    InitialCounted(max);
    CountedRun(Initial(max), steps);
    BoundKept(Initial(max), steps);
  }

  /** Over the same runs, and with no dial letting go of an owned address, a
      reservation is answered by who is in progress: the owner's id if the source
      has one, refusal if the bound is reached, and otherwise it wins. */
  lemma ReservesExactly(max: nat, steps: seq<Step>, source: Source, id: Id, owner: Id)
    requires Run(Initial(max), steps) && SparesOwners(Initial(max), steps) && SparesSlots(Initial(max), steps)
    ensures var s := End(Initial(max), steps);
            var r := ReserveFor(s.r, source, id).1;
            && (r == Existing(owner) <==> Owns(s, owner) && s.responders[owner].source == source)
            && (r == Full <==> |Unfinished(s)| == max && forall x :: Owns(s, x) ==> s.responders[x].source != source)
            && (r == Won <==> |Unfinished(s)| < max && forall x :: Owns(s, x) ==> s.responders[x].source != source)
  {
    CountsAreHolders(max, steps, source);
    OwnershipRun(Initial(max), steps);
    BoundKept(Initial(max), steps);
    var s := End(Initial(max), steps);
    if source in s.r.bySource { assert Owns(s, s.r.bySource[source]); }
  }

  lemma {:induction false} BoundKept(s: System, steps: seq<Step>)
    requires Run(s, steps)
    ensures End(s, steps).r.maxHalfOpen == s.r.maxHalfOpen
    decreases |steps|
  {
    if steps != [] { BoundKept(Next(s, steps[0]), steps[1..]); }
  }

  lemma InitialCounted(max: nat)
    ensures Accounted(Initial(max).r) && Counted(Initial(max))
  {
    assert Unfinished(Initial(max)) == {};
    assert forall source :: Holders(Initial(max), source) == {};
  }

  /** Two steps from the start reach a count below the responders in progress. */
  lemma SlotUndercounted(max: nat, source: Source, id: Id)
    requires max > 0
    ensures var steps := [Reserve(source, id), DialFree(source)];
            && Run(Initial(max), steps)
            && Owns(End(Initial(max), steps), id)
            && End(Initial(max), steps).responders[id].source == source
            && CountOf(End(Initial(max), steps).r, source) == 0
  {
    var steps := [Reserve(source, id), DialFree(source)];
    var s := Next(Initial(max), steps[0]);
    assert steps[1..] == [steps[1]] && [steps[1]][1..] == [];
    assert Run(Next(s, steps[1]), []) && Run(s, steps[1..]);
    assert End(s, steps[1..]) == Next(s, steps[1]);
  }

  /** Nothing leaks: when every responder is gone and no dial met one in progress,
      the registry is empty again. */
  lemma NothingLeaks(max: nat, steps: seq<Step>)
    requires Run(Initial(max), steps) && SparesOwners(Initial(max), steps) && SparesSlots(Initial(max), steps)
    requires forall id :: id in End(Initial(max), steps).responders ==> End(Initial(max), steps).responders[id].stage.Gone?
    ensures End(Initial(max), steps).r == Initial(max).r
  {
    BoundKept(Initial(max), steps);
    InitialCounted(max);
    CountedRun(Initial(max), steps);
    OwnershipRun(Initial(max), steps);
    var s := End(Initial(max), steps);
    forall source ensures source !in s.r.halfOpen && source !in s.r.bySource {
      assert Holders(s, source) == {};
      assert CountOf(s.r, source) == 0;
    }
    assert s.r.halfOpen == map[] && s.r.bySource == map[];
  }
}
