/** The constraint algebra of er_translator/data/constraint.py.

    A `Check` asks one column to be NULL or NOT NULL; a `Condition` groups
    the checks that must hold for one value of a selector column; a
    `Constraint` groups conditions under one name. Checks merge by attribute
    name (the first one wins) and conditions merge by selector value.

    `Condition` and `Constraint` are objects updated in place; each is
    specified against its value (`ConditionValue`, `ConstraintValue`) and the
    fold functions `MergeChecks` and `MergeConditions`. */
module Constraints {
  import opened Wrappers

  datatype Check = Check(attributeName: string, isNull: bool)

  /** The attribute names a list of checks mentions. */
  function CheckNames(checks: seq<Check>): set<string>
  {
    set c | c in checks :: c.attributeName
  }

  ghost predicate DistinctNames(checks: seq<Check>)
  {
    forall i, j :: 0 <= i < j < |checks| ==> checks[i].attributeName != checks[j].attributeName
  }

  /** One iteration of `add_checks`: the check is appended only when no check
      with its attribute name is present. */
  function AddCheck(checks: seq<Check>, check: Check): seq<Check>
  {
    if check.attributeName in CheckNames(checks) then checks else checks + [check]
  }

  /** `Condition.add_checks` on values: every incoming check is offered in
      turn. The old list is a prefix of the result, and the result mentions
      exactly the names of both lists. */
  function MergeChecks(existing: seq<Check>, incoming: seq<Check>): (r: seq<Check>)
    ensures existing <= r
    ensures CheckNames(r) == CheckNames(existing) + CheckNames(incoming)
    ensures forall c :: c in r ==> c in existing || c in incoming
    decreases |incoming|
  {
    if incoming == [] then existing
    else
      var init := incoming[..|incoming| - 1];
      assert CheckNames(incoming) == CheckNames(init) + {incoming[|incoming| - 1].attributeName} by {
        assert incoming == init + [incoming[|incoming| - 1]];
      }
      AddCheck(MergeChecks(existing, init), incoming[|incoming| - 1])
  }

  /** Merging never introduces two checks on the same attribute, even when
      the incoming list itself repeats a name. */
  lemma {:induction false} MergeChecksKeepsNamesDistinct(existing: seq<Check>, incoming: seq<Check>)
    requires DistinctNames(existing)
    ensures DistinctNames(MergeChecks(existing, incoming))
    decreases |incoming|
  {
    if incoming != [] {
      var init := incoming[..|incoming| - 1];
      MergeChecksKeepsNamesDistinct(existing, init);
      var m := MergeChecks(existing, init);
      var c := incoming[|incoming| - 1];
      if c.attributeName !in CheckNames(m) {
        forall i | 0 <= i < |m| ensures m[i].attributeName != c.attributeName {
          assert m[i] in m;
        }
      }
    }
  }

  /** The first check of a list that is about `name`. */
  function FirstNamed(checks: seq<Check>, name: string): (c: Check)
    requires name in CheckNames(checks)
    ensures c in checks && c.attributeName == name
  {
    if checks[0].attributeName == name then checks[0]
    else
      assert checks == [checks[0]] + checks[1..];
      FirstNamed(checks[1..], name)
  }

  lemma {:induction false} FirstNamedAppend(checks: seq<Check>, check: Check, name: string)
    requires name in CheckNames(checks + [check])
    ensures name in CheckNames(checks) ==> FirstNamed(checks + [check], name) == FirstNamed(checks, name)
    ensures name !in CheckNames(checks) ==> FirstNamed(checks + [check], name) == check
  {
    if checks == [] {
      assert checks + [check] == [check];
    } else {
      assert (checks + [check])[1..] == checks[1..] + [check];
      if checks[0].attributeName != name {
        assert checks == [checks[0]] + checks[1..];
        assert name in CheckNames(checks) ==> name in CheckNames(checks[1..]);
        assert name in CheckNames(checks[1..] + [check]) by {
          assert checks + [check] == [checks[0]] + (checks[1..] + [check]);
        }
        FirstNamedAppend(checks[1..], check, name);
      }
    }
  }

  lemma {:induction false} FirstNamedOfDistinct(checks: seq<Check>, i: nat)
    requires DistinctNames(checks) && i < |checks|
    ensures checks[i].attributeName in CheckNames(checks)
    ensures FirstNamed(checks, checks[i].attributeName) == checks[i]
  {
    assert checks[i] in checks;
    if i > 0 {
      assert DistinctNames(checks[1..]) by {
        forall a, b | 0 <= a < b < |checks[1..]|
          ensures checks[1..][a].attributeName != checks[1..][b].attributeName
        {
          assert checks[1..][a] == checks[a + 1] && checks[1..][b] == checks[b + 1];
        }
      }
      assert checks[1..][i - 1] == checks[i];
      FirstNamedOfDistinct(checks[1..], i - 1);
    }
  }

  lemma ConcatSnoc<T>(a: seq<T>, b: seq<T>)
    requires b != []
    ensures a + b == (a + b[..|b| - 1]) + [b[|b| - 1]]
  {
    assert b == b[..|b| - 1] + [b[|b| - 1]];
  }

  /** One more incoming check offered to `MergeChecks`. */
  lemma MergeChecksStep(existing: seq<Check>, incoming: seq<Check>, i: nat)
    requires i < |incoming|
    ensures MergeChecks(existing, incoming[..i + 1]) == AddCheck(MergeChecks(existing, incoming[..i]), incoming[i])
  {
    assert incoming[..i + 1][..i] == incoming[..i];
  }

  lemma CheckNamesConcat(a: seq<Check>, b: seq<Check>)
    ensures CheckNames(a + b) == CheckNames(a) + CheckNames(b)
  {
    forall c | c in a + b ensures c in a || c in b { }
  }

  /** First one wins: every check kept by a merge is the first check about its
      attribute among the old checks followed by the incoming ones. */
  lemma {:induction false} MergeChecksFirstWins(existing: seq<Check>, incoming: seq<Check>, i: nat)
    requires DistinctNames(existing)
    requires i < |MergeChecks(existing, incoming)|
    ensures MergeChecks(existing, incoming)[i].attributeName in CheckNames(existing + incoming)
    ensures MergeChecks(existing, incoming)[i]
            == FirstNamed(existing + incoming, MergeChecks(existing, incoming)[i].attributeName)
    decreases |incoming|
  {
    var r := MergeChecks(existing, incoming);
    assert r[i] in r;
    CheckNamesConcat(existing, incoming);
    if incoming == [] {
      assert existing + incoming == existing;
      FirstNamedOfDistinct(existing, i);
    } else {
      var init := incoming[..|incoming| - 1];
      var c := incoming[|incoming| - 1];
      var m := MergeChecks(existing, init);
      ConcatSnoc(existing, incoming);
      CheckNamesConcat(existing, init);
      if i < |m| {
        assert r[i] == m[i];
        MergeChecksFirstWins(existing, init, i);
        FirstNamedAppend(existing + init, c, r[i].attributeName);
      } else {
        assert r == m + [c] && r[i] == c;
        assert c.attributeName !in CheckNames(m);
        FirstNamedAppend(existing + init, c, c.attributeName);
      }
    }
  }

  datatype ConditionValue = ConditionValue(selectorValue: string, checks: seq<Check>)

  datatype ConstraintValue =
    ConstraintValue(entityName: string, constraintName: string, selectorName: string,
                    conditions: seq<ConditionValue>)

  function SelectorValues(conditions: seq<ConditionValue>): set<string>
  {
    set c | c in conditions :: c.selectorValue
  }

  ghost predicate DistinctSelectorValues(conditions: seq<ConditionValue>)
  {
    forall i, j :: 0 <= i < j < |conditions| ==> conditions[i].selectorValue != conditions[j].selectorValue
  }

  /** The position of the first condition for selector value `value`. */
  function FindSelector(conditions: seq<ConditionValue>, value: string): (r: Option<nat>)
    ensures r.None? <==> forall k :: 0 <= k < |conditions| ==> conditions[k].selectorValue != value
    ensures r.Some? ==> r.value < |conditions| && conditions[r.value].selectorValue == value
    ensures r.Some? ==> forall k :: 0 <= k < r.value ==> conditions[k].selectorValue != value
  {
    if conditions == [] then None
    else if conditions[0].selectorValue == value then Some(0)
    else match FindSelector(conditions[1..], value)
      case None => None
      case Some(i) => Some(i + 1)
  }

  /** One iteration of `add_conditions`: merge into the first condition with
      the same selector value, or append. */
  function AddCondition(conditions: seq<ConditionValue>, condition: ConditionValue): seq<ConditionValue>
  {
    match FindSelector(conditions, condition.selectorValue)
    case Some(j) =>
      conditions[j := conditions[j].(checks := MergeChecks(conditions[j].checks, condition.checks))]
    case None => conditions + [condition]
  }

  /** `Constraint.add_conditions` on values. */
  function MergeConditions(existing: seq<ConditionValue>, incoming: seq<ConditionValue>): seq<ConditionValue>
    decreases |incoming|
  {
    if incoming == [] then existing
    else AddCondition(MergeConditions(existing, incoming[..|incoming| - 1]), incoming[|incoming| - 1])
  }

  lemma AddConditionSelectorValues(conditions: seq<ConditionValue>, condition: ConditionValue)
    ensures |conditions| <= |AddCondition(conditions, condition)|
    ensures forall k :: 0 <= k < |conditions| ==>
      AddCondition(conditions, condition)[k].selectorValue == conditions[k].selectorValue &&
      conditions[k].checks <= AddCondition(conditions, condition)[k].checks
    ensures SelectorValues(AddCondition(conditions, condition))
            == SelectorValues(conditions) + {condition.selectorValue}
  {
    var r := AddCondition(conditions, condition);
    match FindSelector(conditions, condition.selectorValue)
    case Some(j) =>
      forall x | x in SelectorValues(conditions) ensures x in SelectorValues(r) {
        var k :| 0 <= k < |conditions| && conditions[k].selectorValue == x;
        assert r[k].selectorValue == x;
      }
      forall x | x in SelectorValues(r) ensures x in SelectorValues(conditions) {
        var k :| 0 <= k < |r| && r[k].selectorValue == x;
        assert conditions[k].selectorValue == x;
      }
    case None =>
  }

  /** The old conditions keep their places and selector values and only gain
      checks; the selector values of the result are those of both lists. */
  lemma {:induction false} MergeConditionsKeepsExisting(existing: seq<ConditionValue>, incoming: seq<ConditionValue>)
    ensures |existing| <= |MergeConditions(existing, incoming)|
    ensures forall k :: 0 <= k < |existing| ==>
      MergeConditions(existing, incoming)[k].selectorValue == existing[k].selectorValue &&
      existing[k].checks <= MergeConditions(existing, incoming)[k].checks
    ensures SelectorValues(MergeConditions(existing, incoming))
            == SelectorValues(existing) + SelectorValues(incoming)
    decreases |incoming|
  {
    if incoming != [] {
      var init := incoming[..|incoming| - 1];
      var last := incoming[|incoming| - 1];
      assert incoming == init + [last];
      MergeConditionsKeepsExisting(existing, init);
      AddConditionSelectorValues(MergeConditions(existing, init), last);
      var m := MergeConditions(existing, init);
      var r := MergeConditions(existing, incoming);
      forall k | 0 <= k < |existing| ensures existing[k].checks <= r[k].checks {
        assert existing[k].checks <= m[k].checks && m[k].checks <= r[k].checks;
      }
    }
  }

  /** Distinct selector values stay distinct after a merge. */
  lemma {:induction false} MergeConditionsKeepsSelectorsDistinct(existing: seq<ConditionValue>, incoming: seq<ConditionValue>)
    requires DistinctSelectorValues(existing)
    ensures DistinctSelectorValues(MergeConditions(existing, incoming))
    decreases |incoming|
  {
    if incoming != [] {
      var init := incoming[..|incoming| - 1];
      var last := incoming[|incoming| - 1];
      MergeConditionsKeepsSelectorsDistinct(existing, init);
      var m := MergeConditions(existing, init);
      match FindSelector(m, last.selectorValue)
      case Some(j) =>
      case None =>
    }
  }

  lemma MergeConditionsStep(existing: seq<ConditionValue>, incoming: seq<ConditionValue>, i: nat)
    requires i < |incoming|
    ensures MergeConditions(existing, incoming[..i + 1])
            == AddCondition(MergeConditions(existing, incoming[..i]), incoming[i])
  {
    assert incoming[..i + 1][..i] == incoming[..i];
  }

  /** The checks recorded for selector value `value` (none when absent). */
  function ChecksFor(conditions: seq<ConditionValue>, value: string): seq<Check>
  {
    match FindSelector(conditions, value)
    case Some(j) => conditions[j].checks
    case None => []
  }

  /** The attribute names that incoming conditions for `value` mention. */
  function IncomingNames(incoming: seq<ConditionValue>, value: string): set<string>
    decreases |incoming|
  {
    if incoming == [] then {}
    else
      var last := incoming[|incoming| - 1];
      IncomingNames(incoming[..|incoming| - 1], value)
        + (if last.selectorValue == value then CheckNames(last.checks) else {})
  }

  lemma FindSelectorAt(conditions: seq<ConditionValue>, value: string, j: nat)
    requires j < |conditions| && conditions[j].selectorValue == value
    requires forall k :: 0 <= k < j ==> conditions[k].selectorValue != value
    ensures FindSelector(conditions, value) == Some(j)
  {
  }

  lemma FindSelectorAfterUpdate(conditions: seq<ConditionValue>, j: nat, condition: ConditionValue, value: string)
    requires j < |conditions| && condition.selectorValue == conditions[j].selectorValue
    ensures FindSelector(conditions[j := condition], value) == FindSelector(conditions, value)
  {
    var r := conditions[j := condition];
    assert forall k :: 0 <= k < |r| ==> r[k].selectorValue == conditions[k].selectorValue;
  }

  lemma FindSelectorAfterAppend(conditions: seq<ConditionValue>, condition: ConditionValue, value: string)
    ensures FindSelector(conditions, value).Some? ==>
      FindSelector(conditions + [condition], value) == FindSelector(conditions, value)
    ensures FindSelector(conditions, value).None? && condition.selectorValue == value ==>
      FindSelector(conditions + [condition], value) == Some(|conditions|)
    ensures FindSelector(conditions, value).None? && condition.selectorValue != value ==>
      FindSelector(conditions + [condition], value).None?
  {
    var r := conditions + [condition];
    assert forall k :: 0 <= k < |conditions| ==> r[k] == conditions[k];
    if FindSelector(conditions, value).None? && condition.selectorValue == value {
      assert r[|conditions|].selectorValue == value;
      assert FindSelector(r, value).Some?;
    }
  }

  /** One merge step adds the incoming names to the checks of its selector
      value and leaves the checks of every other value as they were. */
  lemma AddConditionNames(conditions: seq<ConditionValue>, condition: ConditionValue, value: string)
    ensures CheckNames(ChecksFor(AddCondition(conditions, condition), value))
            == CheckNames(ChecksFor(conditions, value))
               + (if condition.selectorValue == value then CheckNames(condition.checks) else {})
  {
    match FindSelector(conditions, condition.selectorValue)
    case Some(j) =>
      var updated := conditions[j].(checks := MergeChecks(conditions[j].checks, condition.checks));
      FindSelectorAfterUpdate(conditions, j, updated, value);
    case None =>
      FindSelectorAfterAppend(conditions, condition, value);
  }

  /** After merging, the attribute names checked under a selector value are
      exactly the old names for that value together with the names of every
      incoming condition for it. */
  lemma {:induction false} MergeConditionsUnitesNames(existing: seq<ConditionValue>, incoming: seq<ConditionValue>, value: string)
    ensures CheckNames(ChecksFor(MergeConditions(existing, incoming), value))
            == CheckNames(ChecksFor(existing, value)) + IncomingNames(incoming, value)
    decreases |incoming|
  {
    if incoming != [] {
      var init := incoming[..|incoming| - 1];
      var last := incoming[|incoming| - 1];
      MergeConditionsUnitesNames(existing, init, value);
      AddConditionNames(MergeConditions(existing, init), last, value);
    }
  }

  /** `Condition` of the source: a selector value and the checks it
      requires, extended in place by `AddChecks`. */
  class Condition {
    const selectorValue: string
    var checks: seq<Check>

    constructor (selectorValue: string, checks: seq<Check>)
      ensures this.selectorValue == selectorValue && this.checks == checks
    {
      this.selectorValue := selectorValue;
      this.checks := checks;
    }

    function Value(): ConditionValue
      reads this
    {
      ConditionValue(selectorValue, checks)
    }

    method AddChecks(incoming: seq<Check>)
      modifies this
      ensures checks == MergeChecks(old(checks), incoming)
    {
      ghost var start := checks;
      var i := 0;
      while i < |incoming|
        invariant 0 <= i <= |incoming|
        invariant checks == MergeChecks(start, incoming[..i])
      {
        var newCheck := incoming[i];
        var found := HasCheckNamed(newCheck.attributeName);
        if !found {
          checks := checks + [newCheck];
        }
        MergeChecksStep(start, incoming, i);
        i := i + 1;
      }
      assert incoming[..|incoming|] == incoming;
    }

    /** The search loop of `add_checks`: is some check about `name`? */
    method HasCheckNamed(name: string) returns (found: bool)
      ensures found <==> name in CheckNames(checks)
    {
      found := false;
      var j := 0;
      while j < |checks|
        invariant 0 <= j <= |checks|
        invariant forall k :: 0 <= k < j ==> checks[k].attributeName != name
      {
        if name == checks[j].attributeName {
          found := true;
          return;
        }
        j := j + 1;
      }
      assert forall c :: c in checks ==> c.attributeName != name;
    }
  }

  /** The values of a list of condition objects, in order. */
  function ConditionValues(conditions: seq<Condition>): (r: seq<ConditionValue>)
    reads conditions
    ensures |r| == |conditions|
    ensures forall k :: 0 <= k < |conditions| ==> r[k] == conditions[k].Value()
  {
    seq(|conditions|, k requires 0 <= k < |conditions| reads conditions => conditions[k].Value())
  }

  ghost predicate DistinctObjects(conditions: seq<Condition>)
  {
    forall i, j :: 0 <= i < j < |conditions| ==> conditions[i] != conditions[j]
  }

  /** `Constraint` of the source: a named group of conditions on a selector,
      extended in place by `AddConditions`. */
  class Constraint {
    const entityName: string
    const constraintName: string
    const selectorName: string
    var conditions: seq<Condition>

    constructor (entityName: string, constraintName: string, selectorName: string,
                 conditions: seq<Condition>)
      ensures this.entityName == entityName && this.constraintName == constraintName
      ensures this.selectorName == selectorName && this.conditions == conditions
    {
      this.entityName := entityName;
      this.constraintName := constraintName;
      this.selectorName := selectorName;
      this.conditions := conditions;
    }

    function Value(): ConstraintValue
      reads this, conditions
    {
      ConstraintValue(entityName, constraintName, selectorName, ConditionValues(conditions))
    }

    /** Merges every incoming condition into the first condition with the same
        selector value, or appends it. The incoming conditions are distinct
        objects that the constraint does not hold yet. */
    method AddConditions(incoming: seq<Condition>)
      requires DistinctObjects(conditions) && DistinctObjects(incoming)
      requires forall k :: 0 <= k < |incoming| ==> incoming[k] !in conditions
      modifies this, conditions, incoming
      ensures ConditionValues(conditions) == MergeConditions(old(ConditionValues(conditions)), old(ConditionValues(incoming)))
      ensures DistinctObjects(conditions)
      ensures forall k :: 0 <= k < |incoming| && incoming[k] !in conditions ==> incoming[k].Value() == old(incoming[k].Value())
    {
      ghost var before := ConditionValues(conditions);
      ghost var offered := ConditionValues(incoming);
      assert offered[..0] == [];
      var i := 0;
      while i < |incoming|
        invariant 0 <= i <= |incoming|
        invariant DistinctObjects(conditions)
        invariant forall k :: i <= k < |incoming| ==> incoming[k] !in conditions
        invariant forall k :: i <= k < |incoming| ==> incoming[k].Value() == offered[k]
        invariant forall c :: c in conditions ==> c in old(conditions) || c in incoming
        invariant ConditionValues(conditions) == MergeConditions(before, offered[..i])
        invariant forall k :: 0 <= k < i && incoming[k] !in conditions ==> incoming[k].Value() == offered[k]
      {
        var newCondition := incoming[i];
        assert forall k :: 0 <= k < |conditions| ==> conditions[k] in old(conditions) || conditions[k] in incoming;
        MergeCondition(newCondition);
        MergeConditionsStep(before, offered, i);
        i := i + 1;
      }
      assert offered[..|incoming|] == offered;
    }

    /** One pass of the loop of `add_conditions`: the new condition's checks
        merged into the first condition with the same selector value, or the
        new condition appended. */
    method MergeCondition(newCondition: Condition)
      requires DistinctObjects(conditions) && newCondition !in conditions
      modifies this, conditions
      ensures ConditionValues(conditions) == AddCondition(old(ConditionValues(conditions)), old(newCondition.Value()))
      ensures DistinctObjects(conditions)
      ensures forall c :: c in conditions ==> c in old(conditions) || c == newCondition
      ensures forall c :: c in old(conditions) ==> c in conditions
    {
      ghost var current := ConditionValues(conditions);
      var found := false;
      var j := 0;
      label Search:
      while j < |conditions|
        invariant 0 <= j <= |conditions|
        invariant !found
        invariant unchanged@Search(this) && unchanged@Search(conditions)
        invariant forall k :: 0 <= k < j ==> conditions[k].selectorValue != newCondition.selectorValue
      {
        if newCondition.selectorValue == conditions[j].selectorValue {
          assert conditions[j] in conditions;
          conditions[j].AddChecks(newCondition.checks);
          found := true;
          break;
        }
        j := j + 1;
      }
      if found {
        assert forall k :: 0 <= k < |current| ==> current[k].selectorValue == conditions[k].selectorValue;
        FindSelectorAt(current, newCondition.selectorValue, j);
        assert forall k :: 0 <= k < |conditions| && k != j ==> conditions[k].Value() == current[k];
        assert ConditionValues(conditions) == AddCondition(current, newCondition.Value());
      } else {
        assert FindSelector(current, newCondition.selectorValue).None?;
        conditions := conditions + [newCondition];
        assert ConditionValues(conditions) == AddCondition(current, newCondition.Value());
      }
    }
  }
}
