/** The accumulator of generated hierarchy checks
    (er_translator/data/hierachy_checks.py). Selectors and constraints are
    recorded with the name of the entity they belong to; all three lists are
    only ever appended to. */
module HierarchyCheckStore {
  import opened Sql

  class HierarchyChecks {
    var selectors: seq<(string, Selector)>
    var constraints: seq<(string, SqlConstraint)>
    var triggers: seq<Trigger>

    constructor ()
      ensures selectors == [] && constraints == [] && triggers == []
    {
      selectors := [];
      constraints := [];
      triggers := [];
    }

    method AddSelector(entityName: string, selector: Selector)
      modifies this
      ensures selectors == old(selectors) + [(entityName, selector)]
      ensures constraints == old(constraints) && triggers == old(triggers)
    {
      selectors := selectors + [(entityName, selector)];
    }

    method AddConstraint(entityName: string, constraint: SqlConstraint)
      modifies this
      ensures constraints == old(constraints) + [(entityName, constraint)]
      ensures selectors == old(selectors) && triggers == old(triggers)
    {
      constraints := constraints + [(entityName, constraint)];
    }

    method AddTrigger(trigger: Trigger)
      modifies this
      ensures triggers == old(triggers) + [trigger]
      ensures selectors == old(selectors) && constraints == old(constraints)
    {
      triggers := triggers + [trigger];
    }
  }
}
