/** What a sweep did: one action for each row, and how many had each outcome. */
module Reports {
  function Tally<A, O(==)>(outcomeOf: A -> O, actions: seq<A>, o: O): nat {
    if actions == [] then 0
    else Tally(outcomeOf, actions[..|actions| - 1], o) + if outcomeOf(actions[|actions| - 1]) == o then 1 else 0
  }

  class Report<A, O(==,!new)> {
    const outcomeOf: A -> O
    var counts: map<O, nat>
    var actions: seq<A>

    /** `counts` tallies `actions`. */
    ghost predicate Tallied()
      reads this
    {
      forall o :: Tally(outcomeOf, actions, o) == if o in counts then counts[o] else 0
    }

    constructor (outcomeOf: A -> O)
      ensures Tallied() && actions == [] && this.outcomeOf == outcomeOf
    {
      this.outcomeOf := outcomeOf;
      counts, actions := map[], [];
    }

    method Record(action: A)
      requires Tallied()
      modifies this
      ensures Tallied() && actions == old(actions) + [action]
    {
      assert (actions + [action])[..|actions|] == actions;
      var o := outcomeOf(action);
      actions := actions + [action];
      counts := counts[o := (if o in counts then counts[o] else 0) + 1];
    }

    /** How many rows had this outcome. */
    method Count(o: O) returns (n: nat)
      requires Tallied()
      ensures n == Tally(outcomeOf, actions, o)
    {
      n := if o in counts then counts[o] else 0;
    }
  }
}
