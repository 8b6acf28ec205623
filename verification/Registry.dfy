/** The registry of temporary errors. */
module Registry {
  import opened ErrorChains

  /** `list` without its first element that has `target` in its chain. */
  function RemoveFirst(list: seq<Err>, target: Err): seq<Err> {
    if list == [] then []
    else if Is(list[0], target) then list[1..]
    else [list[0]] + RemoveFirst(list[1..], target)
  }

  function RemoveEach(list: seq<Err>, targets: seq<Err>): seq<Err> {
    if targets == [] then list
    else RemoveFirst(RemoveEach(list, targets[..|targets| - 1]), targets[|targets| - 1])
  }

  lemma {:induction false} RemoveFirstAt(list: seq<Err>, target: Err, i: nat)
    requires i < |list| && Is(list[i], target)
    requires forall j :: 0 <= j < i ==> !Is(list[j], target)
    ensures RemoveFirst(list, target) == list[..i] + list[i + 1..]
  {
    if i > 0 {
      RemoveFirstAt(list[1..], target, i - 1);
      assert list[..i] == [list[0]] + list[1..][..i - 1];
    }
  }

  lemma {:induction false} RemoveFirstNone(list: seq<Err>, target: Err)
    requires forall j :: 0 <= j < |list| ==> !Is(list[j], target)
    ensures RemoveFirst(list, target) == list
  {
    if list != [] {
      RemoveFirstNone(list[1..], target);
    }
  }

  /** How many entries have `target` in their chain. */
  function Matching(list: seq<Err>, target: Err): nat {
    if list == [] then 0 else (if Is(list[0], target) then 1 else 0) + Matching(list[1..], target)
  }

  /** One removal takes one matching entry, if there is one, and nothing else. */
  lemma {:induction false} RemoveFirstTakesOne(list: seq<Err>, target: Err)
    ensures var r := RemoveFirst(list, target);
            if Matching(list, target) == 0 then r == list
            else exists e :: Is(e, target) && multiset(list) == multiset(r) + multiset{e}
  {
    if list != [] {
      assert list == [list[0]] + list[1..];
      if !Is(list[0], target) {
        RemoveFirstTakesOne(list[1..], target);
      } else {
        assert multiset(list) == multiset(list[1..]) + multiset{list[0]};
      }
    }
  }

  lemma {:induction false} RemoveFirstMatching(list: seq<Err>, target: Err, other: Err)
    ensures Matching(RemoveFirst(list, target), other) <= Matching(list, other)
    ensures Matching(RemoveFirst(list, target), target) == if Matching(list, target) == 0 then 0 else Matching(list, target) - 1
  {
    if list != [] && !Is(list[0], target) {
      RemoveFirstMatching(list[1..], target, other);
    }
  }

  function Times(targets: seq<Err>, target: Err): nat {
    if targets == [] then 0
    else Times(targets[..|targets| - 1], target) + if targets[|targets| - 1] == target then 1 else 0
  }

  /**
   Removing several targets takes at most one entry for each, each of them matching one of the targets, adds none, and
   leaves of the entries that match a target at least as many fewer as the target is given, down to none.
   */
  lemma {:induction false} RemoveEachTakes(list: seq<Err>, targets: seq<Err>)
    ensures var r := RemoveEach(list, targets);
            && multiset(r) <= multiset(list)
            && |list| - |r| <= |targets|
            && (forall e :: multiset(r)[e] < multiset(list)[e] ==> Matches(e, targets))
            && (forall t :: Matching(r, t) <= if Matching(list, t) <= Times(targets, t) then 0
                                             else Matching(list, t) - Times(targets, t))
  {
    if targets != [] {
      var n := |targets| - 1;
      var before := RemoveEach(list, targets[..n]);
      RemoveEachTakes(list, targets[..n]);
      RemoveFirstTakesOne(before, targets[n]);
      RemovedMatches(list, before, RemoveFirst(before, targets[n]), targets, n);
      forall t {
        RemoveFirstMatching(before, targets[n], t);
      }
    }
  }

  lemma RemovedMatches(list: seq<Err>, before: seq<Err>, r: seq<Err>, targets: seq<Err>, n: nat)
    requires n + 1 == |targets|
    requires multiset(before) <= multiset(list)
    requires forall e :: multiset(before)[e] < multiset(list)[e] ==> Matches(e, targets[..n])
    requires r == before || exists e :: Is(e, targets[n]) && multiset(before) == multiset(r) + multiset{e}
    ensures multiset(r) <= multiset(list) && |before| - |r| <= 1
    ensures forall e :: multiset(r)[e] < multiset(list)[e] ==> Matches(e, targets)
  {
    assert |multiset(before)| == |before| && |multiset(r)| == |r|;
    forall e | multiset(r)[e] < multiset(list)[e]
      ensures Matches(e, targets)
    {
      if Matches(e, targets[..n]) {
        var i :| 0 <= i < n && Is(e, targets[..n][i]);
        assert Is(e, targets[i]);
      } else {
        assert Is(e, targets[n]);
      }
    }
  }

  class Registry {
    var storage: seq<Err>

    constructor ()
      ensures storage == []
    {
      storage := [];
    }

    method RegisterTemporaryErrors(errs: seq<Err>)
      modifies this
      ensures storage == old(storage) + errs
    {
      storage := storage + errs;
    }

    /** Removes, for each target in turn, the first entry that matches it. */
    method UnRegisterTemporaryErrors(errs: seq<Err>)
      modifies this
      ensures storage == RemoveEach(old(storage), errs)
    {
      for n := 0 to |errs|
        invariant storage == RemoveEach(old(storage), errs[..n])
      {
        var target := errs[n];
        var before := storage;
        var i := 0;
        while i < |storage|
          invariant i <= |storage| && storage == before
          invariant forall j :: 0 <= j < i ==> !Is(before[j], target)
        {
          if Is(storage[i], target) {
            RemoveFirstAt(before, target, i);
            storage := storage[..i] + storage[i + 1..];
            break;
          }
          i := i + 1;
        }
        if i == |before| {
          RemoveFirstNone(before, target);
        }
        assert errs[..n + 1][..n] == errs[..n];
      }
      assert errs[..|errs|] == errs;
    }

    method ListTemporaryErrors() returns (r: seq<Err>)
      ensures r == storage
    {
      r := storage;
    }

    /** Searches the given list, or the registry when none is given. */
    method IsTemporaryError(err: Err, given: seq<Err>, none: bool) returns (r: bool)
      ensures r == Matches(err, if none then storage else given)
    {
      var list := given;
      if none {
        list := ListTemporaryErrors();
      }
      for i := 0 to |list|
        invariant forall j :: 0 <= j < i ==> !Is(err, list[j])
      {
        if Is(err, list[i]) {
          return true;
        }
      }
      r := false;
    }
  }
}
