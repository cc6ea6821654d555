/** Interval colouring: stays can share k places exactly when no instant has more than k of them. */
module Slots {
  import opened Base

  datatype Stay = Stay(start: int, finish: int) {
    predicate HoldsAt(t: int) {
      start <= t < finish
    }

    predicate Overlaps(s: Stay) {
      start < s.finish && s.start < finish
    }
  }

  function At(stays: map<Id, Stay>, t: int): set<Id> {
    set i | i in stays && stays[i].HoldsAt(t)
  }

  /** Every stay has a place below k, and stays that share a place do not overlap. */
  ghost predicate Assigns(stays: map<Id, Stay>, k: nat, slots: map<Id, nat>) {
    && slots.Keys == stays.Keys
    && (forall i :: i in stays ==> slots[i] < k)
    && (forall i, j :: i in stays && j in stays && i != j && slots[i] == slots[j] ==> !stays[i].Overlaps(stays[j]))
  }

  ghost predicate Proper(stays: map<Id, Stay>) {
    forall i :: i in stays ==> stays[i].start < stays[i].finish
  }

  // ---------------------------------------------------------------- from few at once to places

  lemma {:induction false} Latest(stays: map<Id, Stay>) returns (last: Id)
    requires stays.Keys != {}
    ensures last in stays && forall i :: i in stays ==> stays[i].start <= stays[last].start
  {
    last :| last in stays;
    var todo := stays.Keys - {last};
    while todo != {}
      invariant last in stays && todo <= stays.Keys
      invariant forall i :: i in stays && i !in todo ==> stays[i].start <= stays[last].start
      decreases todo
    {
      var i :| i in todo;
      if stays[last].start < stays[i].start {
        last := i;
      }
      todo := todo - {i};
    }
  }

  function Used(slots: map<Id, nat>, ids: set<Id>): set<nat>
    requires ids <= slots.Keys
  {
    set i | i in ids :: slots[i]
  }

  lemma {:induction false} UsedAtMost(slots: map<Id, nat>, ids: set<Id>)
    requires ids <= slots.Keys
    ensures |Used(slots, ids)| <= |ids|
  {
    if ids == {} {
      assert Used(slots, ids) == {};
    } else {
      var i :| i in ids;
      UsedAtMost(slots, ids - {i});
      assert Used(slots, ids) == Used(slots, ids - {i}) + {slots[i]};
    }
  }

  function Below(k: nat): set<nat> {
    if k == 0 then {} else Below(k - 1) + {k - 1}
  }

  lemma {:induction false} BelowSize(k: nat)
    ensures |Below(k)| == k && forall n: nat :: n in Below(k) <==> n < k
  {
    if k == 0 {
    } else {
      BelowSize(k - 1);
    }
  }

  /** Pigeonhole: fewer than k used places leave one free. */
  lemma {:induction false} FreePlace(used: set<nat>, k: nat) returns (free: nat)
    requires |used| < k
    ensures free < k && free !in used
  {
    BelowSize(k);
    if Below(k) <= used {
      SubsetCardinality(Below(k), used);
    }
    free :| free in Below(k) && free !in used;
  }

  lemma {:induction false} PlacesExist(stays: map<Id, Stay>, k: nat) returns (slots: map<Id, nat>)
    requires Proper(stays) && forall t :: |At(stays, t)| <= k
    ensures Assigns(stays, k, slots)
    decreases |stays|
  {
    if stays.Keys == {} {
      slots := map[];
    } else {
      var last := Latest(stays);
      var rest := stays - {last};
      Fewer(stays, last, k);
      slots := PlacesExist(rest, k);
      slots := OneMorePlace(stays, last, k, slots);
    }
  }

  lemma {:induction false} Fewer(stays: map<Id, Stay>, last: Id, k: nat)
    requires Proper(stays) && last in stays && forall t :: |At(stays, t)| <= k
    ensures Proper(stays - {last}) && forall t :: |At(stays - {last}, t)| <= k
    ensures |stays - {last}| < |stays|
  {
    var rest := stays - {last};
    forall t ensures |At(rest, t)| <= k {
      SubsetCardinality(At(rest, t), At(stays, t));
    }
    assert rest.Keys == stays.Keys - {last};
    assert |rest| == |rest.Keys| && |stays| == |stays.Keys|;
  }

  /** The stay that starts last takes a place that none of those holding at its start has. */
  lemma {:induction false} OneMorePlace(stays: map<Id, Stay>, last: Id, k: nat, slots: map<Id, nat>)
    returns (more: map<Id, nat>)
    requires Proper(stays) && last in stays && forall i :: i in stays ==> stays[i].start <= stays[last].start
    requires Assigns(stays - {last}, k, slots) && |At(stays, stays[last].start)| <= k
    ensures Assigns(stays, k, more)
  {
    var rivals := At(stays, stays[last].start) - {last};
    UsedAtMost(slots, rivals);
    var free := FreePlace(Used(slots, rivals), k);
    more := slots[last := free];
    forall i | i in stays && i != last && stays[i].Overlaps(stays[last])
      ensures slots[i] != free
    {
      assert i in rivals && slots[i] in Used(slots, rivals);
    }
  }

  // ---------------------------------------------------------------- from places to few at once

  lemma {:induction false} Injective(slots: map<Id, nat>, ids: set<Id>)
    requires ids <= slots.Keys && forall i, j :: i in ids && j in ids && slots[i] == slots[j] ==> i == j
    ensures |Used(slots, ids)| == |ids|
  {
    if ids == {} {
      assert Used(slots, ids) == {};
    } else {
      var i :| i in ids;
      Injective(slots, ids - {i});
      assert Used(slots, ids) == Used(slots, ids - {i}) + {slots[i]};
    }
  }

  lemma {:induction false} PlacesBound(stays: map<Id, Stay>, k: nat, slots: map<Id, nat>, t: int)
    requires Assigns(stays, k, slots)
    ensures |At(stays, t)| <= k
  {
    var held := At(stays, t);
    Injective(slots, held);
    BelowSize(k);
    SubsetCardinality(Used(slots, held), Below(k));
  }

  /** k places suffice exactly when no instant has more than k stays. */
  lemma {:induction false} PlacesIffNeverMore(stays: map<Id, Stay>, k: nat)
    requires Proper(stays)
    ensures (exists slots :: Assigns(stays, k, slots)) <==> forall t :: |At(stays, t)| <= k
  {
    if forall t :: |At(stays, t)| <= k {
      var slots := PlacesExist(stays, k);
    }
    if slots :| Assigns(stays, k, slots) {
      forall t ensures |At(stays, t)| <= k {
        PlacesBound(stays, k, slots, t);
      }
    }
  }
}
