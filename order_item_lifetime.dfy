/**
 Properties of an item over its lifetime: any sequence of mutator calls
 after construction, as described by Checkout.Apply.
 */
module OrderItemLifetime {
  import opened Checkout

  /** The state after the mutator calls ms, in call order, starting from s. */
  function ApplyAll(s: ItemState, ms: seq<Mutation>): (r: ItemState)
    ensures r.id == s.id && r.productId == s.productId
    decreases |ms|
  {
    if ms == [] then s else Apply(ApplyAll(s, ms[..|ms| - 1]), ms[|ms| - 1])
  }

  /** Index i holds a ChangeName and no later call changes the name. */
  predicate IsLastNameWrite(ms: seq<Mutation>, i: int)
  {
    0 <= i < |ms| && ms[i].ChangeName? &&
    forall j :: i < j < |ms| ==> !ms[j].ChangeName?
  }

  /** Index i holds a ChangePrice and no later call changes the price. */
  predicate IsLastPriceWrite(ms: seq<Mutation>, i: int)
  {
    0 <= i < |ms| && ms[i].ChangePrice? &&
    forall j :: i < j < |ms| ==> !ms[j].ChangePrice?
  }

  /** Index i holds a ChangeQuantity and no later call changes the quantity. */
  predicate IsLastQuantityWrite(ms: seq<Mutation>, i: int)
  {
    0 <= i < |ms| && ms[i].ChangeQuantity? &&
    forall j :: i < j < |ms| ==> !ms[j].ChangeQuantity?
  }

  /**
   The name written by the last ChangeName in ms, or initial when ms holds
   no ChangeName.
   */
  function LatestName(initial: string, ms: seq<Mutation>): (n: string)
    ensures (forall i :: 0 <= i < |ms| ==> !ms[i].ChangeName?) ==> n == initial
    ensures forall i :: IsLastNameWrite(ms, i) ==> ms[i] == ChangeName(n)
    decreases |ms|
  {
    if ms == [] then initial
    else if ms[|ms| - 1].ChangeName? then ms[|ms| - 1].newName
    else
      var front := ms[..|ms| - 1];
      assert forall i :: IsLastNameWrite(ms, i) ==> IsLastNameWrite(front, i);
      LatestName(initial, front)
  }

  /**
   The price written by the last ChangePrice in ms, or initial when ms holds
   no ChangePrice.
   */
  function LatestPrice(initial: int, ms: seq<Mutation>): (p: int)
    ensures (forall i :: 0 <= i < |ms| ==> !ms[i].ChangePrice?) ==> p == initial
    ensures forall i :: IsLastPriceWrite(ms, i) ==> ms[i] == ChangePrice(p)
    decreases |ms|
  {
    if ms == [] then initial
    else if ms[|ms| - 1].ChangePrice? then ms[|ms| - 1].newPrice
    else
      var front := ms[..|ms| - 1];
      assert forall i :: IsLastPriceWrite(ms, i) ==> IsLastPriceWrite(front, i);
      LatestPrice(initial, front)
  }

  /**
   The quantity written by the last ChangeQuantity in ms, or initial when ms
   holds no ChangeQuantity.
   */
  function LatestQuantity(initial: int, ms: seq<Mutation>): (q: int)
    ensures (forall i :: 0 <= i < |ms| ==> !ms[i].ChangeQuantity?) ==> q == initial
    ensures forall i :: IsLastQuantityWrite(ms, i) ==> ms[i] == ChangeQuantity(q)
    decreases |ms|
  {
    if ms == [] then initial
    else if ms[|ms| - 1].ChangeQuantity? then ms[|ms| - 1].newQuantity
    else
      var front := ms[..|ms| - 1];
      assert forall i :: IsLastQuantityWrite(ms, i) ==> IsLastQuantityWrite(front, i);
      LatestQuantity(initial, front)
  }

  /** Running ms and then ns is running their concatenation. */
  lemma {:induction false} ApplyAllConcat(s: ItemState, ms: seq<Mutation>, ns: seq<Mutation>)
    ensures ApplyAll(s, ms + ns) == ApplyAll(ApplyAll(s, ms), ns)
    decreases |ns|
  {
    if ns == [] {
      assert ms + ns == ms;
    } else {
      var ns' := ns[..|ns| - 1];
      assert (ms + ns)[..|ms + ns| - 1] == ms + ns';
      ApplyAllConcat(s, ms, ns');
    }
  }

  /**
   After any mutator calls, the ids are the constructor's, name, price and
   quantity are the last ones written, and the total is price times quantity.
   */
  lemma {:induction false} ReplayTracksLatest(s: ItemState, ms: seq<Mutation>)
    ensures ApplyAll(s, ms).name == LatestName(s.name, ms)
    ensures ApplyAll(s, ms).price == LatestPrice(s.price, ms)
    ensures ApplyAll(s, ms).quantity == LatestQuantity(s.quantity, ms)
    ensures Total(ApplyAll(s, ms)) == LatestPrice(s.price, ms) * LatestQuantity(s.quantity, ms)
    decreases |ms|
  {
    if ms != [] {
      ReplayTracksLatest(s, ms[..|ms| - 1]);
    }
  }

  /** Mutators that write different fields commute. */
  lemma DisjointMutationsCommute(s: ItemState, m1: Mutation, m2: Mutation)
    requires !SameField(m1, m2)
    ensures Apply(Apply(s, m1), m2) == Apply(Apply(s, m2), m1)
  {
  }

  /** Of two writes to the same field, the later one wins. */
  lemma LastWriteWins(s: ItemState, m1: Mutation, m2: Mutation)
    requires SameField(m1, m2)
    ensures Apply(Apply(s, m1), m2) == Apply(s, m2)
  {
  }

  /** Repeating a mutator call with the same argument changes nothing more. */
  lemma MutationIdempotent(s: ItemState, m: Mutation)
    ensures Apply(Apply(s, m), m) == Apply(s, m)
  {
    LastWriteWins(s, m, m);
  }

  /** Renaming never changes the total. */
  lemma RenameKeepsTotal(s: ItemState, n: string)
    ensures Total(Apply(s, ChangeName(n))) == Total(s)
  {
  }
}
