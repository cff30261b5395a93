/** What the two maintenance commands of main.ts do. `cleanupPvs` goes
    through the volume list fetched once at the start and, for each file-share
    volume it is allowed to touch, acts on the phase the list shows;
    `fixReclaimPolicies` puts each volume it is allowed to touch in the Delete
    policy. A prompt is an input: the answer it would get. The first call that
    throws ends the whole loop. */
module MaintenanceSpec {
  import opened Base
  import opened Kube
  import opened MigrateSpec

  /** The default of `cleanupPvs`' `pvcNamespace`. */
  const PvcNamespace := "creditcoin"
  const AzureFile := "azurefile"

  /** An item of `getPersistentVolumeList`: `metadata.name` and the volume. */
  datatype ListedPv = ListedPv(name: Option<string>, pv: Pv)

  /** The answers to the two prompts `cleanupPvs` may ask about one volume. */
  datatype Answers = Answers(deletePv: bool, deletePvc: bool)

  /** The answers for item `i`; a prompt without an answer counts as no. */
  function AnswersAt(answers: seq<Answers>, i: nat): Answers {
    if i < |answers| then answers[i] else Answers(false, false)
  }

  function ConfirmedAt(answers: seq<bool>, i: nat): bool {
    i < |answers| && answers[i]
  }

  predicate StartsWith(s: string, prefix: string) {
    |prefix| <= |s| && s[..|prefix|] == prefix
  }

  /** A volume `cleanupPvs` may act on: it has a spec, a storage class
      starting with "azurefile", and a name. */
  predicate Eligible(item: ListedPv) {
    item.pv.spec.Some?
    && item.pv.spec.value.storageClassName.Some? && StartsWith(item.pv.spec.value.storageClassName.value, AzureFile)
    && Truthy(item.name)
  }

  /** The claim of a Bound volume: `claimRef.name` in `claimRef.namespace`,
      falling back to the default namespace when the namespace is absent. */
  function ClaimKey(item: ListedPv, pvcNamespace: string): Option<ObjectKey> {
    var ref := ClaimRefOf(item.pv);
    if ref.Some? && Truthy(ref.value.name) then Some(ObjectKey(ref.value.namespace.GetOr(pvcNamespace), ref.value.name.value))
    else None
  }

  /** With the default `pvcNamespace`, the claim of a volume whose claimRef
      has no namespace is looked up in "creditcoin"; a namespace that is
      present is used as it is. */
  lemma DefaultClaimNamespace(item: ListedPv)
    requires ClaimRefOf(item.pv).Some? && Truthy(ClaimRefOf(item.pv).value.name)
    ensures var ref := ClaimRefOf(item.pv).value;
      ClaimKey(item, PvcNamespace)
        == Some(ObjectKey(if ref.namespace.Some? then ref.namespace.value else "creditcoin", ref.name.value))
  {
  }

  /** The volumes named by the volume calls of a log. */
  function PvTargets(calls: seq<Call>): set<string> {
    if |calls| == 0 then {}
    else
      (match calls[0]
       case PatchPersistentVolume(n, _) => {n}
       case DeletePersistentVolume(n) => {n}
       case _ => {})
      + PvTargets(calls[1..])
  }

  /** The claims named by the claim deletes of a log. */
  function ClaimTargets(calls: seq<Call>): set<ObjectKey> {
    if |calls| == 0 then {}
    else
      (match calls[0]
       case DeletePersistentVolumeClaim(ns, n) => {ObjectKey(ns, n)}
       case _ => {})
      + ClaimTargets(calls[1..])
  }

  lemma {:induction false} TargetsAppend(a: seq<Call>, b: seq<Call>)
    ensures PvTargets(a + b) == PvTargets(a) + PvTargets(b)
    ensures ClaimTargets(a + b) == ClaimTargets(a) + ClaimTargets(b)
    decreases |a|
  {
    if |a| == 0 {
      assert a + b == b;
    } else {
      assert (a + b)[0] == a[0];
      assert (a + b)[1..] == a[1..] + b;
      TargetsAppend(a[1..], b);
    }
  }

  /** The log after `s.calls` names only `name` among volumes, and only `key` among claims. */
  predicate TouchesOnly(s: State, t: State, names: set<string>, keys: set<ObjectKey>) {
    s.calls <= t.calls && PvTargets(t.calls[|s.calls|..]) <= names && ClaimTargets(t.calls[|s.calls|..]) <= keys
  }

  /** A Released volume: remove its claimRef, then delete it. */
  function DeleteReleased(s: State, name: string): (r: Step<()>)
    ensures TouchesOnly(s, r.state, {name}, {})
    ensures r.outcome.Ok? ==> name !in r.state.pvs
    ensures r.outcome.Ok? <==> name in s.pvs && (ClaimRefOf(s.pvs[name]).None? || s.pvs[name].phase == Some(Released))
    ensures r.outcome.Ok? ==>
      r.state.calls == s.calls + (if ClaimRefOf(s.pvs[name]).Some? then [PatchPersistentVolume(name, PvPatch.RemoveClaimRef)] else [])
                               + [DeletePersistentVolume(name)]
    // only the volume list and the log change, and other volumes are kept
    ensures r.state == s.(pvs := r.state.pvs, calls := r.state.calls)
    ensures !r.outcome.Ok? ==> r.state.pvs == s.pvs
    ensures r.state.pvs.Keys <= s.pvs.Keys
    ensures forall n :: n in s.pvs && n != name ==> n in r.state.pvs && r.state.pvs[n] == s.pvs[n]
  {
    var u := MigrateSpec.RemoveClaimRef(s, name);
    if !u.outcome.Ok? then u
    else
      var d := u.state.DeletePv(name);
      var added := if ClaimRefOf(s.pvs[name]).Some? then [PatchPersistentVolume(name, PvPatch.RemoveClaimRef)] else [];
      assert u.state.calls == s.calls + added;
      assert d.state.calls[|s.calls|..] == added + [DeletePersistentVolume(name)];
      TargetsAppend(added, [DeletePersistentVolume(name)]);
      d
  }

  /** A Bound volume whose claim is to go: switch a Retain policy to Delete
      (then the orchestrator deletes the volume with its claim), then delete
      the claim. */
  function DeleteBoundClaim(s: State, name: string, retain: bool, key: ObjectKey): (r: Step<()>)
    ensures TouchesOnly(s, r.state, {name}, {key})
    ensures r.outcome.Ok? <==> (retain ==> name in s.pvs) && key in s.pvcs
    ensures r.outcome.Ok? ==>
      key !in r.state.pvcs
      && r.state.calls == s.calls + (if retain then [PatchPersistentVolume(name, SetReclaimPolicy(Delete))] else [])
                                  + [DeletePersistentVolumeClaim(key.namespace, key.name)]
      && (retain ==> name in r.state.pvs && PolicyOf(r.state.pvs[name]) == Some(Delete))
    // only the volume, the claim and the log change
    ensures r.state == s.(pvs := r.state.pvs, pvcs := r.state.pvcs, calls := r.state.calls)
    ensures r.state.pvcs == s.pvcs || r.state.pvcs == s.pvcs - {key}
    ensures r.outcome.Ok? ==> r.state.pvcs == s.pvcs - {key}
    ensures r.state.pvs == s.pvs
         || (retain && name in s.pvs && r.state.pvs == s.pvs[name := Patched(s.pvs[name], SetReclaimPolicy(Delete))])
  {
    if retain then
      var p := s.PatchPv(name, SetReclaimPolicy(Delete));
      if !p.outcome.Ok? then
        assert p.state.calls[|s.calls|..] == [PatchPersistentVolume(name, SetReclaimPolicy(Delete))];
        p
      else
        var d := p.state.DeletePvc(key);
        assert d.state.calls[|s.calls|..]
            == [PatchPersistentVolume(name, SetReclaimPolicy(Delete))] + [DeletePersistentVolumeClaim(key.namespace, key.name)];
        TargetsAppend([PatchPersistentVolume(name, SetReclaimPolicy(Delete))], [DeletePersistentVolumeClaim(key.namespace, key.name)]);
        d
    else
      var d := s.DeletePvc(key);
      assert d.state.calls[|s.calls|..] == [DeletePersistentVolumeClaim(key.namespace, key.name)];
      d
  }

  /** An Available volume is deleted. */
  function DeleteAvailable(s: State, name: string): (r: Step<()>)
    ensures TouchesOnly(s, r.state, {name}, {})
    ensures r.outcome.Ok? <==> name in s.pvs
    ensures r.state.pvs == s.pvs - {name} && r.state.calls == s.calls + [DeletePersistentVolume(name)]
    ensures r.state == s.(pvs := s.pvs - {name}, calls := s.calls + [DeletePersistentVolume(name)])
  {
    var d := s.DeletePv(name);
    assert d.state.calls[|s.calls|..] == [DeletePersistentVolume(name)];
    d
  }

  /** The volumes and claims `cleanupPvs` may touch for one item. */
  function ItemPvs(item: ListedPv): set<string> {
    if Eligible(item) then {item.name.value} else {}
  }

  function ItemClaims(item: ListedPv, pvcNamespace: string): set<ObjectKey> {
    if Eligible(item) && ClaimKey(item, pvcNamespace).Some? then {ClaimKey(item, pvcNamespace).value} else {}
  }

  /** One iteration of `cleanupPvs`. Once confirmed: an Available volume is
      deleted; a Released one loses its claimRef and is then deleted; for a
      Bound one with a named claim, after the second confirmation, the policy
      is switched from Retain to Delete and the claim is deleted, and the
      volume is left to the orchestrator. No phase, or any other phase: nothing. */
  function CleanupOne(s: State, item: ListedPv, yes: bool, pvcNamespace: string, ans: Answers): (r: Step<()>)
    ensures TouchesOnly(s, r.state, ItemPvs(item), ItemClaims(item, pvcNamespace))
    ensures !Eligible(item) || !(yes || ans.deletePv) ==> r == Step(Ok(()), s)
    ensures Eligible(item) && (yes || ans.deletePv) ==>
      var name := item.name.value;
      var phase := item.pv.phase;
      (phase.None? || phase == Some(Pending) || phase == Some(Failed) ==> r == Step(Ok(()), s))
      && (phase == Some(Available) ==> r == DeleteAvailable(s, name))
      && (phase == Some(Released) ==> r == DeleteReleased(s, name))
      && (phase == Some(Bound) ==>
            r == if ClaimKey(item, pvcNamespace).Some? && (yes || ans.deletePvc)
                 then DeleteBoundClaim(s, name, PolicyOf(item.pv) == Some(Retain), ClaimKey(item, pvcNamespace).value)
                 else Step(Ok(()), s))
  {
    if !Eligible(item) || !(yes || ans.deletePv) then Step(Ok(()), s)
    else
      var name := item.name.value;
      match item.pv.phase
      case None => Step(Ok(()), s)
      case Some(Available) => DeleteAvailable(s, name)
      case Some(Released) => DeleteReleased(s, name)
      case Some(Bound) =>
        var claim := ClaimKey(item, pvcNamespace);
        if claim.None? || !(yes || ans.deletePvc) then Step(Ok(()), s)
        else DeleteBoundClaim(s, name, PolicyOf(item.pv) == Some(Retain), claim.value)
      case Some(_) => Step(Ok(()), s)
  }

  /** `cleanupPvs` over the first items of the list: items in order, the first
      failure ends the loop. */
  function CleanupPvs(s: State, items: seq<ListedPv>, yes: bool, pvcNamespace: string, answers: seq<Answers>): (r: Step<()>)
    ensures s.calls <= r.state.calls
    ensures r.outcome.Ok? || r.outcome.Err?
    decreases |items|
  {
    if |items| == 0 then Step(Ok(()), s)
    else
      var n := |items| - 1;
      var before := CleanupPvs(s, items[..n], yes, pvcNamespace, answers);
      if !before.outcome.Ok? then before
      else CleanupOne(before.state, items[n], yes, pvcNamespace, AnswersAt(answers, n))
  }

  /** One more item of the list. */
  lemma CleanupOneMore(s: State, items: seq<ListedPv>, i: nat, yes: bool, pvcNamespace: string, answers: seq<Answers>)
    requires i < |items|
    ensures var before := CleanupPvs(s, items[..i], yes, pvcNamespace, answers);
      CleanupPvs(s, items[..i + 1], yes, pvcNamespace, answers)
        == if before.outcome.Ok? then CleanupOne(before.state, items[i], yes, pvcNamespace, AnswersAt(answers, i)) else before
  {
    assert items[..i + 1][..i] == items[..i];
  }

  /** The first failure ends the loop: the items after it change nothing. */
  lemma {:induction false} CleanupStopsAtFailure(s: State, items: seq<ListedPv>, k: nat, yes: bool, pvcNamespace: string, answers: seq<Answers>)
    requires k <= |items| && !CleanupPvs(s, items[..k], yes, pvcNamespace, answers).outcome.Ok?
    ensures CleanupPvs(s, items, yes, pvcNamespace, answers) == CleanupPvs(s, items[..k], yes, pvcNamespace, answers)
    decreases |items|
  {
    if k < |items| {
      var n := |items| - 1;
      assert items[..n][..k] == items[..k];
      CleanupStopsAtFailure(s, items[..n], k, yes, pvcNamespace, answers);
    } else {
      assert items[..k] == items;
    }
  }

  /** Two stretches of a log that each touch only their own targets touch
      only the union of those. */
  lemma TouchesOnlyTrans(s: State, m: State, t: State, p1: set<string>, k1: set<ObjectKey>, p2: set<string>, k2: set<ObjectKey>)
    requires TouchesOnly(s, m, p1, k1) && TouchesOnly(m, t, p2, k2)
    ensures TouchesOnly(s, t, p1 + p2, k1 + k2)
  {
    var c1 := m.calls[|s.calls|..];
    var c2 := t.calls[|m.calls|..];
    assert t.calls[|s.calls|..] == c1 + c2;
    TargetsAppend(c1, c2);
  }

  /** The volumes and claims `cleanupPvs` may touch for a list. */
  function EligiblePvs(items: seq<ListedPv>): set<string>
    decreases |items|
  {
    if |items| == 0 then {} else EligiblePvs(items[..|items| - 1]) + ItemPvs(items[|items| - 1])
  }

  function EligibleClaims(items: seq<ListedPv>, pvcNamespace: string): set<ObjectKey>
    decreases |items|
  {
    if |items| == 0 then {} else EligibleClaims(items[..|items| - 1], pvcNamespace) + ItemClaims(items[|items| - 1], pvcNamespace)
  }

  /** Every volume `cleanupPvs` patches or deletes has a name and a storage
      class starting with "azurefile", and every claim it deletes is the
      claim of such a volume. */
  lemma {:induction false} CleanupTouchesOnlyEligible(s: State, items: seq<ListedPv>, yes: bool, pvcNamespace: string, answers: seq<Answers>)
    ensures TouchesOnly(s, CleanupPvs(s, items, yes, pvcNamespace, answers).state, EligiblePvs(items), EligibleClaims(items, pvcNamespace))
    decreases |items|
  {
    if |items| > 0 {
      var n := |items| - 1;
      var before := CleanupPvs(s, items[..n], yes, pvcNamespace, answers);
      CleanupTouchesOnlyEligible(s, items[..n], yes, pvcNamespace, answers);
      if before.outcome.Ok? {
        var r := CleanupOne(before.state, items[n], yes, pvcNamespace, AnswersAt(answers, n));
        TouchesOnlyTrans(s, before.state, r.state, EligiblePvs(items[..n]), EligibleClaims(items[..n], pvcNamespace),
                         ItemPvs(items[n]), ItemClaims(items[n], pvcNamespace));
      }
    }
  }

  /** Without `yes` and without a single yes to the first prompt, nothing is touched. */
  lemma {:induction false} CleanupNeedsConfirmation(s: State, items: seq<ListedPv>, pvcNamespace: string, answers: seq<Answers>)
    requires forall i :: 0 <= i < |items| ==> !AnswersAt(answers, i).deletePv
    ensures CleanupPvs(s, items, false, pvcNamespace, answers) == Step(Ok(()), s)
    decreases |items|
  {
    if |items| > 0 {
      CleanupNeedsConfirmation(s, items[..|items| - 1], pvcNamespace, answers);
    }
  }

  /** `fixReclaimPolicy`: a volume already in Delete is left alone; any other
      gets one merge patch that sets its policy to Delete. */
  function FixReclaimPolicy(s: State, pvName: string): (r: Step<()>)
    ensures pvName !in s.pvs ==> r == Step(Err(NotFound), s)
    ensures pvName in s.pvs && PolicyOf(s.pvs[pvName]) == Some(Delete) ==> r == Step(Ok(()), s)
    ensures r.outcome.Ok? <==> pvName in s.pvs
    ensures r.state.pvs.Keys == s.pvs.Keys
    ensures r.outcome.Ok? ==>
      PolicyOf(r.state.pvs[pvName]) == Some(Delete)
      && r.state.pvs == s.pvs[pvName := r.state.pvs[pvName]]
      && ClaimRefOf(r.state.pvs[pvName]) == ClaimRefOf(s.pvs[pvName])
      && r.state.pvs[pvName].phase == s.pvs[pvName].phase
    ensures r.state.calls == s.calls
         || (PolicyOf(s.pvs[pvName]) != Some(Delete) && r.state.calls == s.calls + [PatchPersistentVolume(pvName, SetReclaimPolicy(Delete))])
    ensures pvName in s.pvs && PolicyOf(s.pvs[pvName]) != Some(Delete) ==>
      r.state.calls == s.calls + [PatchPersistentVolume(pvName, SetReclaimPolicy(Delete))]
    ensures r.state == s.(pvs := r.state.pvs, calls := r.state.calls)
  {
    if pvName !in s.pvs then Step(Err(NotFound), s)
    else if PolicyOf(s.pvs[pvName]) == Some(Delete) then Step(Ok(()), s)
    else s.PatchPv(pvName, SetReclaimPolicy(Delete))
  }

  /** Fixing twice issues at most one patch. */
  lemma FixReclaimPolicyIdempotent(s: State, pvName: string)
    ensures var r := FixReclaimPolicy(s, pvName);
      FixReclaimPolicy(r.state, pvName) == r && |r.state.calls| <= |s.calls| + 1
  {
  }

  /** A volume `fixReclaimPolicies` may act on: it has a spec and a name. */
  predicate FixEligible(item: ListedPv) {
    item.pv.spec.Some? && Truthy(item.name)
  }

  /** `fixReclaimPolicies` over the first items of the list. */
  function FixReclaimPolicies(s: State, items: seq<ListedPv>, yes: bool, answers: seq<bool>): (r: Step<()>)
    ensures s.calls <= r.state.calls
    ensures r.state.pvs.Keys == s.pvs.Keys
    // a volume is either left as it was or only its policy changed, to Delete
    ensures forall n :: n in s.pvs ==>
      r.state.pvs[n] == s.pvs[n]
      || (PolicyOf(r.state.pvs[n]) == Some(Delete) && ClaimRefOf(r.state.pvs[n]) == ClaimRefOf(s.pvs[n])
          && r.state.pvs[n].phase == s.pvs[n].phase)
    decreases |items|
  {
    if |items| == 0 then Step(Ok(()), s)
    else
      var n := |items| - 1;
      var before := FixReclaimPolicies(s, items[..n], yes, answers);
      if !before.outcome.Ok? then before
      else if FixEligible(items[n]) && (yes || ConfirmedAt(answers, n)) then FixReclaimPolicy(before.state, items[n].name.value)
      else before
  }

  /** One more item of the list. */
  lemma FixOneMore(s: State, items: seq<ListedPv>, i: nat, yes: bool, answers: seq<bool>)
    requires i < |items|
    ensures var before := FixReclaimPolicies(s, items[..i], yes, answers);
      FixReclaimPolicies(s, items[..i + 1], yes, answers)
        == if before.outcome.Ok? && FixEligible(items[i]) && (yes || ConfirmedAt(answers, i))
           then FixReclaimPolicy(before.state, items[i].name.value)
           else before
  {
    assert items[..i + 1][..i] == items[..i];
  }

  /** Without `yes` and without a single confirmation, nothing is patched. */
  lemma {:induction false} FixNeedsConfirmation(s: State, items: seq<ListedPv>, answers: seq<bool>)
    requires forall i :: 0 <= i < |items| ==> !ConfirmedAt(answers, i)
    ensures FixReclaimPolicies(s, items, false, answers) == Step(Ok(()), s)
    decreases |items|
  {
    if |items| > 0 {
      FixNeedsConfirmation(s, items[..|items| - 1], answers);
    }
  }

  /** The names `fixReclaimPolicies` may patch: those of the items with a spec
      and a name that were confirmed (all such items, with `yes`). */
  function FixTargets(items: seq<ListedPv>, yes: bool, answers: seq<bool>): (names: set<string>)
    ensures forall n :: n in names <==>
      exists i :: 0 <= i < |items| && FixEligible(items[i]) && (yes || ConfirmedAt(answers, i)) && n == items[i].name.value
    decreases |items|
  {
    if |items| == 0 then {}
    else
      var k := |items| - 1;
      var prefix := FixTargets(items[..k], yes, answers);
      var last: set<string> := if FixEligible(items[k]) && (yes || ConfirmedAt(answers, k)) then {items[k].name.value} else {};
      assert forall i :: 0 <= i < k ==> items[..k][i] == items[i];
      prefix + last
  }

  /** One fix patches at most the volume it is given. */
  lemma FixTouchesOnlyItself(s: State, pvName: string)
    ensures TouchesOnly(s, FixReclaimPolicy(s, pvName).state, {pvName}, {})
  {
    var r := FixReclaimPolicy(s, pvName);
    var added := r.state.calls[|s.calls|..];
    if r.state.calls == s.calls {
      assert added == [];
    } else {
      assert added == [PatchPersistentVolume(pvName, SetReclaimPolicy(Delete))];
      assert added[1..] == [];
    }
  }

  /** Every volume `fixReclaimPolicies` patches is a named volume of the list
      with a spec that was confirmed (or any such volume, with `yes`); it
      deletes no claim. */
  lemma {:induction false} FixTouchesOnlyConfirmed(s: State, items: seq<ListedPv>, yes: bool, answers: seq<bool>)
    ensures TouchesOnly(s, FixReclaimPolicies(s, items, yes, answers).state, FixTargets(items, yes, answers), {})
    decreases |items|
  {
    if |items| == 0 {
      assert s.calls[|s.calls|..] == [];
    } else {
      var n := |items| - 1;
      var before := FixReclaimPolicies(s, items[..n], yes, answers);
      FixTouchesOnlyConfirmed(s, items[..n], yes, answers);
      assert FixTargets(items[..n], yes, answers) <= FixTargets(items, yes, answers);
      if before.outcome.Ok? && FixEligible(items[n]) && (yes || ConfirmedAt(answers, n)) {
        var name := items[n].name.value;
        FixTouchesOnlyItself(before.state, name);
        TouchesOnlyTrans(s, before.state, FixReclaimPolicy(before.state, name).state,
                         FixTargets(items[..n], yes, answers), {}, {name}, {});
      }
    }
  }

  /** The first failure ends the loop: the items after it change nothing. */
  lemma {:induction false} FixStopsAtFailure(s: State, items: seq<ListedPv>, k: nat, yes: bool, answers: seq<bool>)
    requires k <= |items| && !FixReclaimPolicies(s, items[..k], yes, answers).outcome.Ok?
    ensures FixReclaimPolicies(s, items, yes, answers) == FixReclaimPolicies(s, items[..k], yes, answers)
    decreases |items|
  {
    if k < |items| {
      var n := |items| - 1;
      assert items[..n][..k] == items[..k];
      FixStopsAtFailure(s, items[..n], k, yes, answers);
    } else {
      assert items[..k] == items;
    }
  }

  /** When the loop completes, every named volume with a spec that was
      confirmed (or all of them, with `yes`) is in the Delete policy. */
  lemma {:induction false} FixedEndInDelete(s: State, items: seq<ListedPv>, yes: bool, answers: seq<bool>)
    ensures var r := FixReclaimPolicies(s, items, yes, answers);
      r.outcome.Ok? ==>
        forall i :: 0 <= i < |items| && FixEligible(items[i]) && (yes || ConfirmedAt(answers, i)) ==>
          items[i].name.value in r.state.pvs && PolicyOf(r.state.pvs[items[i].name.value]) == Some(Delete)
    decreases |items|
  {
    if |items| > 0 {
      var n := |items| - 1;
      var before := FixReclaimPolicies(s, items[..n], yes, answers);
      FixedEndInDelete(s, items[..n], yes, answers);
      var r := FixReclaimPolicies(s, items, yes, answers);
      if r.outcome.Ok? {
        assert before.outcome.Ok?;
        forall i | 0 <= i < |items| && FixEligible(items[i]) && (yes || ConfirmedAt(answers, i))
          ensures items[i].name.value in r.state.pvs && PolicyOf(r.state.pvs[items[i].name.value]) == Some(Delete)
        {
          if i < n {
            assert items[..n][i] == items[i];
          }
        }
      }
    }
  }
}
