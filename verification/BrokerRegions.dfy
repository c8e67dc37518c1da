/**
 The broker's mutable tables and the code it runs on them under its locks. Each method does
 to the fields exactly what one action of the state machine does to `Shared`.
 */
module BrokerRegions {
  import opened Basics
  import opened BindingRecords
  import opened BrokerModel
  import opened Sorting

  /** `ids` holds every element of `hs` once and nothing else. */
  ghost predicate Lists(ids: seq<Handle>, hs: set<Handle>) {
    && (forall h :: h in ids <==> h in hs)
    && Distinct(ids)
  }

  ghost function Selected(live: map<Handle, Generation>, seen: set<Handle>, goal: Goal): set<Handle> {
    set h | h in seen && h in live && Matches(goal, live[h])
  }

  lemma ListsGrow(ids: seq<Handle>, hs: set<Handle>, more: set<Handle>, h: Handle, selected: bool)
    requires Lists(ids, hs) && h !in hs && more == if selected then hs + {h} else hs
    ensures Lists(if selected then ids + [h] else ids, more)
  {
  }

  lemma ListedAre(ids: seq<Handle>, hs: set<Handle>)
    requires Lists(ids, hs)
    ensures forall k :: 0 <= k < |ids| ==> ids[k] in hs
    ensures Elements(ids) == hs
  {
  }

  lemma ElementsGrow(ids: seq<Handle>, i: nat)
    requires i < |ids| && Distinct(ids)
    ensures Elements(ids[..i + 1]) == Elements(ids[..i]) + {ids[i]} && ids[i] !in Elements(ids[..i])
  {
  }

  lemma {:induction false} ListSize(ids: seq<Handle>, hs: set<Handle>)
    requires Lists(ids, hs)
    ensures |ids| == |hs|
  {
    if ids == [] {
      assert hs == {};
    } else {
      ListSize(ids[1..], hs - {ids[0]});
    }
  }

  lemma ListsClosed(sh: Shared, hs: set<Handle>, ids: seq<Handle>, closed: seq<Generation>)
    requires Lists(ids, hs) && |closed| == |ids|
    requires forall h :: h in hs ==> h in sh.live && sh.live[h].handle == h
    requires forall k :: 0 <= k < |ids| ==> closed[k] == sh.live[ids[k]].(open := false)
    ensures IsClosedList(sh, hs, closed)
  {
    ListSize(ids, hs);
    forall h | h in hs ensures exists i :: 0 <= i < |closed| && closed[i].handle == h {
      var i :| 0 <= i < |ids| && ids[i] == h;
      assert closed[i].handle == h;
    }
  }

  lemma ClosedOneMore(sh: Shared, done: set<Handle>, h: Handle)
    ensures CloseHandles(sh, done + {h}) == CloseHandles(CloseHandles(sh, done), {h})
  {
    assert sh.live - (done + {h}) == sh.live - done - {h};
    assert CloseHandles(sh, done + {h}).gates == CloseHandles(CloseHandles(sh, done), {h}).gates;
  }

  /** Counting a call out undoes counting it in, below the limit of the counter. */
  lemma ReleaseUndoesAdmit(sh: Shared, h: Handle)
    requires h in sh.gates && sh.gates[h].inFlight < U64_MAX
    ensures Release(Admit(sh, h), h) == sh
  {
    var n := sh.gates[h].inFlight;
    assert SaturatingDec(SaturatingInc(n)) == n;
    assert Release(Admit(sh, h), h).gates == sh.gates;
  }

  class RunBindingBroker {
    var nextGeneration: nat
    var activationIds: map<ActivationKey, string>
    var byHandle: map<Handle, Generation>
    var issuedHandles: set<Handle>
    var pendingCleanup: set<BindingId>
    var pendingRunCleanup: set<RunKey>
    var gates: map<Handle, Gate>

    ghost function View(): Shared
      reads this
    {
      Shared(nextGeneration, activationIds, byHandle, issuedHandles, pendingCleanup, pendingRunCleanup, gates)
    }

    ghost predicate Valid()
      reads this
    {
      && nextGeneration <= U64_MAX
      && (forall h :: h in byHandle ==> h in gates && byHandle[h].handle == h)
      && (forall h :: h in gates ==> gates[h].inFlight <= U64_MAX)
    }

    constructor ()
      ensures Valid() && View() == INITIAL.shared
    {
      nextGeneration, activationIds, byHandle, issuedHandles := 0, map[], map[], {};
      pendingCleanup, pendingRunCleanup, gates := {}, {}, map[];
    }

    /** An incomplete key is refused; otherwise the first registration wins. */
    method RegisterComponentActivation(key: ActivationKey, freshId: string) returns (r: Outcome<string>)
      requires Valid()
      modifies this
      ensures Valid() && (r.Ok? <==> CompleteKey(key))
      ensures r.Err? ==> View() == old(View())
      ensures r.Ok? ==> View() == RegisterActivation(old(View()), key, freshId)
      ensures r.Ok? ==> key in activationIds && r.value == activationIds[key]
      ensures forall k :: k in old(activationIds) ==> k in activationIds && activationIds[k] == old(activationIds[k])
    {
      if !CompleteKey(key) {
        return Err("component activation registration is incomplete");
      }
      if key !in activationIds {
        activationIds := activationIds[key := freshId];
      }
      r := Ok(activationIds[key]);
    }

    /** The scan of `attach` for a generation that already serves the request. */
    method FindAttached(sel: Selection, act: Activation, prov: Provider) returns (found: Option<Handle>)
      requires Valid()
      ensures found.Some? <==> AlreadyAttached(View(), sel, act, prov)
      ensures found.Some? ==> found.value in byHandle && Attached(byHandle[found.value], sel, act, prov)
    {
      var rest := byHandle.Keys;
      while rest != {}
        invariant rest <= byHandle.Keys
        invariant forall h :: h in byHandle && h !in rest ==> !Attached(byHandle[h], sel, act, prov)
        decreases rest
      {
        var h :| h in rest;
        if Attached(byHandle[h], sel, act, prov) {
          return Some(h);
        }
        rest := rest - {h};
      }
      found := None;
    }

    /** The write region of `attach`. */
    method InsertGeneration(h: Handle, sel: Selection, act: Activation, prov: Provider)
      requires Valid()
      modifies this
      ensures Valid() && View() == BrokerModel.InsertGeneration(old(View()), h, sel, act, prov)
      ensures Admissible(View(), byHandle[h]) && gates[h].inFlight == 0 && h in issuedHandles
      ensures Attached(byHandle[h], sel, act, prov) && AlreadyAttached(View(), sel, act, prov)
      ensures old(nextGeneration) < U64_MAX ==> byHandle[h].generation > old(nextGeneration)
      ensures forall k :: k in old(byHandle) && k != h ==> k in byHandle && byHandle[k] == old(byHandle[k])
      ensures forall k :: k in old(gates) && k != h ==> k in gates && gates[k] == old(gates[k])
      ensures byHandle.Keys == old(byHandle.Keys) + {h} && old(issuedHandles) <= issuedHandles
    {
      nextGeneration := SaturatingInc(nextGeneration);
      byHandle := byHandle[h := Generation(nextGeneration, true, h, act, sel, prov)];
      issuedHandles := issuedHandles + {h};
      gates := gates[h := Gate(true, 0, 0)];
    }

    /** The final region of `validate_permit`. */
    method AdmitInvocation(prepared: Generation) returns (admitted: bool)
      requires Valid()
      modifies this
      ensures Valid() && (admitted <==> Admissible(old(View()), prepared))
      ensures View() == if admitted then Admit(old(View()), prepared.handle) else old(View())
    {
      var h := prepared.handle;
      if h !in byHandle || !byHandle[h].open || byHandle[h].generation != prepared.generation {
        return false;
      }
      if !gates[h].admissionOpen {
        return false;
      }
      gates := gates[h := gates[h].(inFlight := SaturatingInc(gates[h].inFlight))];
      admitted := true;
    }

    /** The locked part of dropping a permit, and of rolling back a failed invocation. */
    method ReleaseInvocation(h: Handle)
      requires Valid() && h in gates
      modifies this`gates
      ensures Valid() && View() == Release(old(View()), h)
      ensures old(gates[h].inFlight) > 0 ==> gates[h].inFlight == old(gates[h].inFlight) - 1
      ensures gates[h].admissionOpen == old(gates[h].admissionOpen)
      ensures gates.Keys == old(gates.Keys) && forall k :: k in gates && k != h ==> gates[k] == old(gates[k])
    {
      gates := gates[h := gates[h].(inFlight := SaturatingDec(gates[h].inFlight))];
    }

    /** One turn of the loop in `close_matching`. */
    method CloseOne(h: Handle) returns (generation: Generation)
      requires h in byHandle && h in gates
      modifies this
      ensures View() == CloseHandles(old(View()), {h})
      ensures generation == old(byHandle[h]).(open := false)
    {
      generation := byHandle[h].(open := false);
      byHandle := byHandle - {h};
      gates := gates[h := gates[h].(admissionOpen := false)];
    }

    /** The list of handles `close_matching` collects before it removes anything. */
    method MatchingIds(goal: Goal) returns (ids: seq<Handle>)
      ensures Lists(ids, MatchingHandles(View(), goal))
    {
      ids := [];
      var rest := byHandle.Keys;
      ghost var seen := {};
      while rest != {}
        invariant rest !! seen && rest + seen == byHandle.Keys
        invariant Lists(ids, Selected(byHandle, seen, goal))
        decreases rest
      {
        var h :| h in rest;
        var selected := Matches(goal, byHandle[h]);
        ListsGrow(ids, Selected(byHandle, seen, goal), Selected(byHandle, seen + {h}, goal), h, selected);
        if selected { ids := ids + [h]; }
        rest, seen := rest - {h}, seen + {h};
      }
      assert seen == byHandle.Keys;
    }

    /** The loop of `close_matching` over the collected handles. */
    method CloseAll(ids: seq<Handle>) returns (closed: seq<Generation>)
      requires Distinct(ids)
      requires forall k :: 0 <= k < |ids| ==> ids[k] in byHandle && ids[k] in gates
      modifies this
      ensures View() == CloseHandles(old(View()), Elements(ids))
      ensures |closed| == |ids|
      ensures forall k :: 0 <= k < |ids| ==> closed[k] == old(byHandle[ids[k]]).(open := false)
    {
      ghost var before := View();
      closed := [];
      for i := 0 to |ids|
        invariant View() == CloseHandles(before, Elements(ids[..i]))
        invariant |closed| == i
        invariant forall k :: 0 <= k < i ==> closed[k] == before.live[ids[k]].(open := false)
      {
        ElementsGrow(ids, i);
        ClosedOneMore(before, Elements(ids[..i]), ids[i]);
        var generation := CloseOne(ids[i]);
        closed := closed + [generation];
      }
      assert ids[..|ids|] == ids;
    }

    /** `close_matching`: unlink every selected generation and shut its gate. */
    method CloseMatching(goal: Goal) returns (closed: seq<Generation>)
      requires Valid()
      modifies this
      ensures Valid() && View() == BrokerModel.CloseMatching(old(View()), goal)
      ensures IsClosedQueue(old(View()), goal, closed)
    {
      var ids := MatchingIds(goal);
      ghost var hs := MatchingHandles(View(), goal);
      ListedAre(ids, hs);
      closed := CloseAll(ids);
      ListsClosed(old(View()), hs, ids, closed);
    }

    /** The `retain` at the end of `stop_run`. */
    method ForgetRun(run: RunKey)
      requires Valid()
      modifies this`activationIds
      ensures Valid() && View() == DropRunActivations(old(View()), run)
      ensures forall key :: key in activationIds ==> !InRun(key, run)
    {
      activationIds := map k | k in activationIds && !InRun(k, run) :: activationIds[k];
    }
  }
}
