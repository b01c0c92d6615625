/** Alias resolution inside a task's own alias table (src/inference_grid/aliases.py). */
module Aliases {
  import opened Wrappers
  import Text

  /** `v != "" and v.strip() != ""`. */
  predicate ValidId(v: string) {
    !Text.Blank(v)
  }

  predicate ValidTable(aliases: map<string, string>) {
    forall k :: k in aliases ==> ValidId(k) && ValidId(aliases[k])
  }

  /** What the walk from `current` ends at, with `seen` already visited; None on a cycle. */
  function Follow(aliases: map<string, string>, current: string, seen: set<string>): Option<string>
    decreases aliases.Keys - seen
  {
    if current !in aliases then Some(current)
    else if current in seen then None
    else Follow(aliases, aliases[current], seen + {current})
  }

  function Canonical(aliases: map<string, string>, name: string): Option<string> {
    if ValidTable(aliases) && ValidId(name) then Follow(aliases, name, {}) else None
  }

  method CanonicalAccount(name: string, aliases: map<string, string>) returns (r: Option<string>)
    ensures r == Canonical(aliases, name)
  {
    if !ValidTable(aliases) || !ValidId(name) {
      return None;
    }
    var seen: set<string> := {};
    var current := name;
    while current in aliases
      invariant Follow(aliases, current, seen) == Follow(aliases, name, {})
      decreases aliases.Keys - seen
    {
      if current in seen {
        return None;
      }
      seen := seen + {current};
      current := aliases[current];
    }
    return Some(current);
  }

  /** The n-th name of the chain that starts at `name`; the chain stays at its end. */
  function Chain(aliases: map<string, string>, name: string, n: nat): string
    decreases n
  {
    if n == 0 then name
    else
      var p := Chain(aliases, name, n - 1);
      if p in aliases then aliases[p] else p
  }

  /** The visited names, and the current one, are the first names of the chain. */
  ghost predicate Walked(aliases: map<string, string>, name: string, current: string, seen: set<string>, n: nat) {
    && current == Chain(aliases, name, n)
    && seen == (set i | 0 <= i < n :: Chain(aliases, name, i))
    && seen <= aliases.Keys
  }

  lemma {:induction false} FollowMeaning(aliases: map<string, string>, name: string, current: string, seen: set<string>, n: nat)
    requires Walked(aliases, name, current, seen, n)
    ensures Follow(aliases, current, seen).Some? ==>
              exists m: nat :: Chain(aliases, name, m) == Follow(aliases, current, seen).value
    ensures Follow(aliases, current, seen).Some? ==> Follow(aliases, current, seen).value !in aliases
    ensures Follow(aliases, current, seen).None? ==> forall m: nat :: Chain(aliases, name, m) in aliases
    decreases aliases.Keys - seen
  {
    if current !in aliases {
      assert Chain(aliases, name, n) == current;
    } else if current in seen {
      forall m: nat ensures Chain(aliases, name, m) in aliases {
        CycleNeverLeaves(aliases, name, seen, n, m);
      }
    } else {
      assert Chain(aliases, name, n + 1) == aliases[current];
      var wider := set i | 0 <= i < n + 1 :: Chain(aliases, name, i);
      assert forall x :: x in wider ==> x in seen + {current};
      assert current in wider;
      assert forall i :: 0 <= i < n ==> Chain(aliases, name, i) in wider;
      FollowMeaning(aliases, name, aliases[current], seen + {current}, n + 1);
    }
  }

  lemma {:induction false} CycleNeverLeaves(aliases: map<string, string>, name: string, seen: set<string>, n: nat, m: nat)
    requires Walked(aliases, name, Chain(aliases, name, n), seen, n)
    requires Chain(aliases, name, n) in seen
    ensures Chain(aliases, name, m) in seen
    decreases m
  {
    if m < n {
    } else if m > n {
      CycleNeverLeaves(aliases, name, seen, n, m - 1);
      var i: nat :| i < n && Chain(aliases, name, i) == Chain(aliases, name, m - 1);
      assert Chain(aliases, name, i + 1) == Chain(aliases, name, m);
      assert i + 1 < n || i + 1 == n;
    }
  }

  /** The lookup answers exactly when the name and the table's ids are valid and the chain of the
      name ends, and then with its end; a blank id, or a chain that never leaves the table, is
      refused. */
  lemma CanonicalIsChainEnd(aliases: map<string, string>, name: string, end: string)
    ensures Canonical(aliases, name) == Some(end) <==>
            ValidTable(aliases) && ValidId(name) && end !in aliases && exists m: nat :: Chain(aliases, name, m) == end
    ensures Canonical(aliases, name).None? <==>
            !ValidTable(aliases) || !ValidId(name) || forall m: nat :: Chain(aliases, name, m) in aliases
  {
    FollowMeaning(aliases, name, name, {}, 0);
    if Follow(aliases, name, {}).Some? && end !in aliases && exists m: nat :: Chain(aliases, name, m) == end {
      var m: nat :| Chain(aliases, name, m) == end;
      var k: nat :| Chain(aliases, name, k) == Follow(aliases, name, {}).value;
      ChainStays(aliases, name, m, k);
      ChainStays(aliases, name, k, m);
    }
  }

  lemma {:induction false} ChainStays(aliases: map<string, string>, name: string, m: nat, k: nat)
    requires Chain(aliases, name, m) !in aliases
    ensures k >= m ==> Chain(aliases, name, k) == Chain(aliases, name, m)
    decreases k
  {
    if k > m {
      ChainStays(aliases, name, m, k - 1);
    }
  }
}
