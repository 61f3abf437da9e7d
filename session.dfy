/** The wizard's session state (`step`, `title`, `description`, the two
    dates, the definition list, the error map) and the id counter the
    definition factory draws from, with the handlers that replace them. */
module Wizard {
  import opened Wrappers
  import opened Seqs
  import opened Definitions
  import opened Collection
  import opened Choices
  import opened Validation
  import Catalog

  /** `STEPS.length - 1`: the review step. */
  const LastStep: nat := |Catalog.Steps| - 1

  class Session {
    var step: nat
    var title: string
    var description: string
    var startDate: DateField
    var endDate: DateField
    var defs: seq<OfferDefinition>
    var errors: Errors
    /** The module-level counter behind `od_<n>` ids. */
    var nextDefId: nat

    /** What every handler keeps true: the step is one of the three, ids are
        distinct and were all drawn from the counter, and every definition is
        as the card's controls leave it. */
    ghost predicate Valid()
      reads this
    {
      && step <= LastStep
      && DistinctIds(defs)
      && IdsBelow(defs, nextDefId)
      && forall i :: 0 <= i < |defs| ==> WellFormed(defs[i])
    }

    /** The initial state: the first step, empty fields, no errors and one
        fresh definition whose id is the counter's current value. */
    constructor (counter: nat)
      ensures Valid()
      ensures step == 0 && title == "" && description == ""
      ensures startDate == NoDate && endDate == NoDate && errors == map[]
      ensures defs == [MakeOfferDefinition(counter)] && nextDefId == counter + 1
    {
      step := 0;
      title := "";
      description := "";
      startDate := NoDate;
      endDate := NoDate;
      defs := [MakeOfferDefinition(counter)];
      errors := map[];
      nextDefId := counter + 1;
      MakeOfferDefinitionWellFormed(counter);
    }

    method SetTitle(t: string)
      requires Valid()
      modifies this`title
      ensures Valid() && title == t
    {
      title := t;
    }

    method SetDescription(s: string)
      requires Valid()
      modifies this`description
      ensures Valid() && description == s
    {
      description := s;
    }

    method SetStartDate(date: DateField)
      requires Valid()
      modifies this`startDate
      ensures Valid() && startDate == date
    {
      startDate := date;
    }

    method SetEndDate(date: DateField)
      requires Valid()
      modifies this`endDate
      ensures Valid() && endDate == date
    {
      endDate := date;
    }

    /** `validateStep(stepIdx)`: stores the step's error map and reports
        whether it is empty. */
    method ValidateStep(stepIdx: int) returns (ok: bool)
      requires Valid()
      modifies this`errors
      ensures Valid()
      ensures errors == StepErrors(stepIdx, title, startDate, endDate, defs)
      ensures ok <==> errors == map[]
    {
      errors := CollectErrors(stepIdx, title, startDate, endDate, defs);
      ok := |errors| == 0;
    }

    /** `goNext`: the current step is validated; only when it passes does the
        wizard move on, and never past the review step. */
    method GoNext()
      requires Valid()
      modifies this`errors, this`step
      ensures Valid()
      ensures errors == StepErrors(old(step), title, startDate, endDate, defs)
      ensures errors != map[] ==> step == old(step)
      ensures errors == map[] ==> step == if old(step) + 1 <= LastStep then old(step) + 1 else LastStep
    {
      var ok := ValidateStep(step);
      if !ok {
        return;
      }
      step := if step + 1 <= LastStep then step + 1 else LastStep;
    }

    /** `goBack`: one step back, never before the first. */
    method GoBack()
      requires Valid()
      modifies this`step
      ensures Valid()
      ensures step == if old(step) > 0 then old(step) - 1 else 0
    {
      step := if step > 0 then step - 1 else 0;
    }

    /** A click on the stepper's entry `i`: only completed steps, those
        before the current one, can be jumped to. */
    method JumpTo(i: nat)
      requires Valid() && i < |Catalog.Steps|
      modifies this`step
      ensures Valid()
      ensures step == if i < old(step) then i else old(step)
      ensures step <= old(step)
    {
      if i < step {
        step := i;
      }
    }

    /** `addDef`: a fresh definition is appended and the counter advances. */
    method AddDef()
      requires Valid()
      modifies this`defs, this`nextDefId
      ensures Valid()
      ensures defs == old(defs) + [MakeOfferDefinition(old(nextDefId))]
      ensures nextDefId == old(nextDefId) + 1
    {
      MakeOfferDefinitionWellFormed(nextDefId);
      defs := defs + [MakeOfferDefinition(nextDefId)];
      nextDefId := nextDefId + 1;
    }

    /** `removeDef(defId)` */
    method RemoveDef(id: nat)
      requires Valid()
      modifies this`defs
      ensures Valid()
      ensures defs == RemoveDefs(old(defs), id)
      ensures CanRemoveDef(old(defs)) ==> defs != []
    {
      RemoveDefsKeepsDistinctIds(defs, id);
      if CanRemoveDef(defs) {
        OfferedRemovalKeepsOne(defs, id);
      }
      defs := RemoveDefs(defs, id);
    }

    /** `duplicateDef(defId)`: when a definition has the id, its clone is
        spliced in right after it and takes the counter's value; otherwise
        neither the list nor the counter changes. */
    method DuplicateDef(id: nat)
      requires Valid()
      modifies this`defs, this`nextDefId
      ensures Valid()
      ensures IndexOf(old(defs), id).None? ==> defs == old(defs) && nextDefId == old(nextDefId)
      ensures IndexOf(old(defs), id).Some? ==>
        var k := IndexOf(old(defs), id).value;
        && defs == InsertAt(old(defs), k + 1, Clone(old(defs)[k], old(nextDefId)))
        && nextDefId == old(nextDefId) + 1
    {
      var idx := IndexOf(defs, id);
      if idx.None? {
        return;
      }
      var clone := Clone(defs[idx.value], nextDefId);
      InsertCloneKeepsValid(defs, idx.value, nextDefId);
      nextDefId := nextDefId + 1;
      defs := InsertAt(defs, idx.value + 1, clone);
    }

    /** `updateDef(defId, updater)` for an edit the card offers. */
    method UpdateDef(id: nat, e: DefEdit)
      requires Valid()
      requires forall i :: 0 <= i < |defs| && defs[i].id == id ==> EditInRange(defs[i], e) && Offered(defs[i], e)
      modifies this`defs
      ensures Valid()
      ensures defs == UpdateDefs(old(defs), id, e)
    {
      var r := UpdateDefs(defs, id, e);
      forall i | 0 <= i < |defs| ensures r[i].id == defs[i].id && WellFormed(r[i]) {
        if defs[i].id == id {
          OfferedEditKeepsWellFormed(defs[i], e);
        }
      }
      defs := r;
    }
  }

  /** Removal keeps the ids distinct: what remains is a subsequence. */
  lemma RemoveDefsKeepsDistinctIds(defs: seq<OfferDefinition>, id: nat)
    requires DistinctIds(defs)
    ensures DistinctIds(RemoveDefs(defs, id))
  {
    FilterKeepsDistinctIds(defs, (d: OfferDefinition) => d.id != id);
  }

  lemma {:induction false} FilterKeepsDistinctIds(defs: seq<OfferDefinition>, p: OfferDefinition -> bool)
    requires DistinctIds(defs)
    ensures DistinctIds(Filter(defs, p))
  {
    if defs != [] {
      var rest := Filter(defs[1..], p);
      FilterKeepsDistinctIds(defs[1..], p);
      if p(defs[0]) {
        forall j | 0 <= j < |rest| ensures rest[j].id != defs[0].id {
          assert rest[j] in defs[1..];
        }
        assert Filter(defs, p) == [defs[0]] + rest;
      }
    }
  }

  /** The clone's id is new, and the clone is as well formed as its source. */
  lemma InsertCloneKeepsValid(defs: seq<OfferDefinition>, k: nat, newId: nat)
    requires k < |defs| && DistinctIds(defs) && IdsBelow(defs, newId)
    requires forall i :: 0 <= i < |defs| ==> WellFormed(defs[i])
    ensures var r := InsertAt(defs, k + 1, Clone(defs[k], newId));
      && DistinctIds(r) && IdsBelow(r, newId + 1)
      && forall i :: 0 <= i < |r| ==> WellFormed(r[i])
  {
    var c := Clone(defs[k], newId);
    assert WellFormed(c) by {
      assert c.criteria == defs[k].criteria && c.journeyStatus == defs[k].journeyStatus;
      assert c.smartTags == defs[k].smartTags && c.outcomes == defs[k].outcomes;
    }
    InsertFreshIdKeepsDistinct(defs, k + 1, c, newId);
  }

  /** Splicing in a definition whose id is above every other keeps the ids
      distinct and below the advanced counter. */
  lemma InsertFreshIdKeepsDistinct(defs: seq<OfferDefinition>, at: nat, c: OfferDefinition, newId: nat)
    requires at <= |defs| && DistinctIds(defs) && IdsBelow(defs, newId) && c.id == newId
    ensures var r := InsertAt(defs, at, c); DistinctIds(r) && IdsBelow(r, newId + 1)
  {
    var r := InsertAt(defs, at, c);
    forall i, j | 0 <= i < j < |r| ensures r[i].id != r[j].id {
      if i == at {
        assert r[j] == defs[j - 1];
      } else if j == at {
        assert r[i] == defs[i];
      } else {
        var a := if i < at then i else i - 1;
        var b := if j < at then j else j - 1;
        assert r[i] == defs[a] && r[j] == defs[b] && a < b;
      }
    }
  }
}
