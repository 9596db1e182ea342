/** Which coordinators a restore settles: exactly those that were known when its gate closed
    and those whose registration was accepted while it was closed. */
module RestoreInventory {
  import opened Basics
  import opened RestoreSpec
  import opened Restore

  /** With the gate open every registration is accepted; behind a closed gate only an
      existing coordinator's, until the restore is about to release. */
  predicate Accepts(s: Sys, existing: bool) {
    || s.gate.active.None?
    || (s.gate.active.value in s.ops && existing
        && s.ops[s.gate.active.value].stage != Releasing && s.ops[s.gate.active.value].resume != Some(Releasing))
  }

  predicate Registers(s: Sys, e: Event, c: Name) { e.Register? && e.coordinator == c && Accepts(s, e.existing) }

  /** The coordinator registered in this run and was not forgotten since. */
  predicate Known(run: seq<Event>, c: Name) {
    run != [] &&
    var n := |run| - 1;
    Registers(From(Start, run[..n]), run[n], c) || (run[n] != Forget(c) && Known(run[..n], c))
  }

  lemma RegistryStep(s: Sys, e: Event, c: Name)
    requires Inv(s)
    ensures c in Next(s, e).registry <==> Registers(s, e, c) || (e != Forget(c) && c in s.registry)
  {
  }

  lemma {:induction false} RegistryIsExact(run: seq<Event>, c: Name)
    ensures c in From(Start, run).registry <==> Known(run, c)
  {
    if run != [] {
      var n := |run| - 1;
      RegistryIsExact(run[..n], c);
      RunKeeps(Start, run[..n]);
      RegistryStep(From(Start, run[..n]), run[n], c);
    }
  }

  predicate Executes(s: Sys, e: Event, id: RestoreId) {
    e == Execute(id) && id in s.ops && s.ops[id].stage == Previewed && s.gate.active.None?
  }

  /** The `n`th event is the execution of the restore, with the coordinator known then, or
      the coordinator's accepted registration behind the restore's gate. */
  predicate Counts(run: seq<Event>, n: nat, id: RestoreId, c: Name)
    requires n < |run|
  {
    var before := From(Start, run[..n]);
    (Executes(before, run[n], id) && Known(run[..n], c)) || (Registers(before, run[n], c) && before.gate.active == Some(id))
  }

  predicate Listed(s: Sys, id: RestoreId, c: Name) { id in s.ops && c in s.ops[id].work }

  lemma AdvanceLists(s: Sys, e: Event, id: RestoreId, c: Name)
    requires Inv(s) && e.Advance?
    ensures Listed(Next(s, e), id, c) == Listed(s, id, c)
  {
    if s.gate.active.Some? {
      assert GateOk(s, s.gate.active.value) && OpOk(s.ops[s.gate.active.value]);
      if e.answer.Positive? { ForwardIsOk(Gated(s).value, e.pick, e.discard); }
    }
  }

  lemma RegisterLists(s: Sys, e: Event, id: RestoreId, c: Name)
    requires Inv(s) && e.Register?
    ensures Listed(Next(s, e), id, c) <==> Listed(s, id, c) || (Registers(s, e, c) && s.gate.active == Some(id))
  {
  }

  lemma ExecuteLists(s: Sys, e: Event, id: RestoreId, c: Name)
    requires Inv(s) && e.Execute?
    ensures Listed(Next(s, e), id, c) <==> Listed(s, id, c) || (Executes(s, e, id) && c in s.registry)
  {
  }

  lemma OthersList(s: Sys, e: Event, id: RestoreId, c: Name)
    requires Inv(s) && !e.Advance? && !e.Register? && !e.Execute?
    ensures Listed(Next(s, e), id, c) == Listed(s, id, c)
  {
  }

  lemma CountedStep(s: Sys, e: Event, id: RestoreId, c: Name)
    requires Inv(s)
    ensures Listed(Next(s, e), id, c) <==>
      Listed(s, id, c) || (Executes(s, e, id) && c in s.registry) || (Registers(s, e, c) && s.gate.active == Some(id))
  {
    if e.Advance? { AdvanceLists(s, e, id, c); } else if e.Register? { RegisterLists(s, e, id, c); }
    else if e.Execute? { ExecuteLists(s, e, id, c); } else { OthersList(s, e, id, c); }
  }

  lemma {:induction false} CountsLast(run: seq<Event>, id: RestoreId, c: Name)
    requires run != []
    ensures var k := |run| - 1; var before := From(Start, run[..k]);
      Counts(run, k, id, c) <==> (Executes(before, run[k], id) && c in before.registry) || (Registers(before, run[k], c) && before.gate.active == Some(id))
  {
    RegistryIsExact(run[..|run| - 1], c);
  }

  /** A restore's list of coordinators is exactly those that counted, in every run. */
  lemma {:induction false} InventoryIsExact(run: seq<Event>, id: RestoreId, c: Name)
    ensures Listed(From(Start, run), id, c) <==> exists n: nat :: n < |run| && Counts(run, n, id, c)
  {
    if run != [] {
      var k := |run| - 1;
      InventoryIsExact(run[..k], id, c);
      RunKeeps(Start, run[..k]);
      CountedStep(From(Start, run[..k]), run[k], id, c);
      CountsLast(run, id, c);
      forall n: nat | n < k ensures Counts(run, n, id, c) == Counts(run[..k], n, id, c) { assert run[..k][..n] == run[..n]; }
    }
  }

  /** So a complete restore has settled every coordinator that was known when its gate closed
      or that registered behind it, and no other. */
  lemma {:induction false} CompleteSettlesTheKnown(run: seq<Event>, id: RestoreId, c: Name)
    requires id in From(Start, run).ops && From(Start, run).ops[id].stage == Complete
    ensures var op := From(Start, run).ops[id];
      (exists n: nat :: n < |run| && Counts(run, n, id, c)) <==> c in op.work && op.work[c] in {Retained, Discarded}
  {
    InventoryIsExact(run, id, c);
    RunKeeps(Start, run);
    assert OpOk(From(Start, run).ops[id]);
  }

  /** What the authority remembers of an operation's coordinators. */
  ghost predicate RemembersWork(s: Sys, id: RestoreId)
    requires id in s.ops
  {
    if s.ops[id].stage == Previewed then id !in s.inventory && s.ops[id].work == map[]
    else id in s.inventory && s.inventory[id] == s.ops[id].work.Keys
  }

  lemma StoreRemembers(s: Sys, op: Op, id: RestoreId)
    requires Inv(s) && id in s.ops && RemembersWork(s, id) && s.gate.active.Some?
    requires op.stage != Previewed && op.work.Keys == s.ops[s.gate.active.value].work.Keys
    ensures RemembersWork(Store(s, op), id)
  {
    assert GateOk(s, s.gate.active.value) && OpOk(s.ops[s.gate.active.value]);
  }

  lemma AdvanceRemembers(s: Sys, e: Event, id: RestoreId)
    requires Inv(s) && id in s.ops && RemembersWork(s, id) && e.Advance?
    ensures RemembersWork(Next(s, e), id)
  {
    if s.gate.active.Some? {
      var op := Gated(s).value;
      assert GateOk(s, s.gate.active.value) && OpOk(op);
      match e.answer
      case Positive =>
        ForwardIsOk(op, e.pick, e.discard);
        StoreRemembers(s, Forward(op, e.pick, e.discard), id);
      case Park => StoreRemembers(s, Parked(op), id);
      case Stale => StoreRemembers(s, op.(stage := Failed), id);
      case Again =>
    }
  }

  lemma OpenRegisterRemembers(s: Sys, e: Event, id: RestoreId)
    requires Inv(s) && id in s.ops && RemembersWork(s, id) && e.Register? && s.gate.active != Some(id)
    ensures RemembersWork(Next(s, e), id)
  {
  }

  lemma GatedRegisterRemembers(s: Sys, e: Event, id: RestoreId)
    requires Inv(s) && id in s.ops && RemembersWork(s, id) && e.Register? && s.gate.active == Some(id)
    ensures RemembersWork(Next(s, e), id)
  {
    assert GateOk(s, id) && OpOk(s.ops[id]);
  }

  lemma RegisterRemembers(s: Sys, e: Event, id: RestoreId)
    requires Inv(s) && id in s.ops && RemembersWork(s, id) && e.Register?
    ensures RemembersWork(Next(s, e), id)
  {
    if s.gate.active == Some(id) { GatedRegisterRemembers(s, e, id); } else { OpenRegisterRemembers(s, e, id); }
  }

  lemma ExecuteRemembers(s: Sys, e: Event, id: RestoreId)
    requires Inv(s) && id in s.ops && RemembersWork(s, id) && e.Execute?
    ensures RemembersWork(Next(s, e), id)
  {
  }

  lemma OthersRemember(s: Sys, e: Event, id: RestoreId)
    requires Inv(s) && id in s.ops && RemembersWork(s, id) && !e.Advance? && !e.Register? && !e.Execute?
    ensures RemembersWork(Next(s, e), id)
  {
    if s.gate.active.Some? { assert GateOk(s, s.gate.active.value) && OpOk(s.ops[s.gate.active.value]); }
    assert GateOk(s, id) && OpOk(s.ops[id]);
  }

  lemma NewOpsRemember(s: Sys, e: Event, id: RestoreId)
    requires Inv(s) && id !in s.ops && id in Next(s, e).ops
    ensures RemembersWork(Next(s, e), id)
  {
    assert id !in s.inventory;
  }

  /** In every run the inventory of an executed restore is its list of coordinators. */
  lemma {:induction false} InventoryIsWork(run: seq<Event>, id: RestoreId)
    requires id in From(Start, run).ops
    ensures RemembersWork(From(Start, run), id)
  {
    var k := |run| - 1;
    var s := From(Start, run[..k]);
    RunKeeps(Start, run[..k]);
    if id !in s.ops { NewOpsRemember(s, run[k], id); }
    else {
      InventoryIsWork(run[..k], id);
      if run[k].Advance? { AdvanceRemembers(s, run[k], id); }
      else if run[k].Register? { RegisterRemembers(s, run[k], id); }
      else if run[k].Execute? { ExecuteRemembers(s, run[k], id); }
      else { OthersRemember(s, run[k], id); }
    }
  }
}
