/** The inventory system (inventory_management.py): named items with a
    quantity and an optional owner, users with a capacity, capacity-checked
    insertion, greedy eviction when a capacity shrinks, and a path search.

    `items` maps a name to `Some(item)`, or to `None` once `update_capacity`
    has evicted it: the name stays in the dict. `Item` objects are never
    changed after creation, so the object shared by `copy_item` is modelled
    as a copied value. Quantities and capacities are integers. */
module Inventory {
  import opened Wrappers
  import opened Seqs
  import opened Ordering
  import opened Text
  import opened Sums

  type UserId = string
  type Name = string

  /** The `Item` dataclass. */
  datatype Item = Item(quantity: int, owner: Option<UserId>)

  /** `self.items`; `None` is the value `update_capacity` writes. */
  type Items = map<Name, Option<Item>>

  /** The exceptions the inventory raises. */
  datatype InventoryError =
    | AttributeError  // `.owner_id` or `.quantity` read on an evicted (None) entry
    | TypeError       // `sum` over names, in the usage computation as written
    | IndexError      // `pop()` from an empty list in `update_capacity`

  /** `add_user`: False, and the old capacity kept, for a known user. */
  function AddUserOn(users: map<UserId, int>, user: UserId, capacity: int): (r: (map<UserId, int>, bool))
    ensures r.1 <==> user !in users
    ensures r.1 ==> r.0 == users[user := capacity]
    ensures !r.1 ==> r.0 == users
  {
    if user in users then (users, false) else (users[user := capacity], true)
  }

  /** `add_item`: False, and no change, for a name already present (evicted
      names included); otherwise a new item under that name. */
  function AddItemOn(items: Items, name: Name, quantity: int, owner: Option<UserId>): (r: (Items, bool))
    ensures r.1 <==> name !in items
    ensures r.1 ==> r.0 == items[name := Some(Item(quantity, owner))]
    ensures !r.1 ==> r.0 == items
  {
    if name in items then (items, false) else (items[name := Some(Item(quantity, owner))], true)
  }

  /** `copy_item`: False, and no change, when the target exists or the source
      does not; otherwise the target holds what the source holds, an evicted
      `None` included. */
  function CopyItemOn(items: Items, from: Name, to: Name): (r: (Items, bool))
    ensures r.1 <==> to !in items && from in items
    ensures r.1 ==> r.0 == items[to := items[from]] && r.0[to] == r.0[from]
    ensures !r.1 ==> r.0 == items
  {
    if to in items || from !in items then (items, false) else (items[to := items[from]], true)
  }

  /** `get_item_quantity`: `None` (the source's "") for a missing or evicted
      name, otherwise the quantity. */
  function QuantityOf(items: Items, name: Name): (r: Option<int>)
    ensures r.Some? <==> name in items && items[name].Some?
    ensures r.Some? ==> r.value == items[name].value.quantity
  {
    if name in items && items[name].Some? then Some(items[name].value.quantity) else None
  }

  /** Copying makes the target report the source's quantity. */
  lemma CopyKeepsQuantity(items: Items, from: Name, to: Name)
    requires CopyItemOn(items, from, to).1
    ensures QuantityOf(CopyItemOn(items, from, to).0, to) == QuantityOf(items, from)
    ensures forall n :: n != to ==> QuantityOf(CopyItemOn(items, from, to).0, n) == QuantityOf(items, n)
  {
  }

  /** Some entry has been evicted. */
  predicate HasEvicted(items: Items) {
    exists n :: n in items && items[n].None?
  }

  /** The quantity of a live entry, 0 otherwise. */
  function Qty(items: Items, n: Name): int {
    if n in items && items[n].Some? then items[n].value.quantity else 0
  }

  /** The live entries owned by `user`. */
  function OwnedNames(items: Items, user: UserId): (r: set<Name>)
    ensures forall n :: n in r <==> n in items && items[n].Some? && items[n].value.owner == Some(user)
  {
    set n | n in items && items[n].Some? && items[n].value.owner == Some(user)
  }

  /** What a user's items add up to: the sum of the quantities they own. */
  ghost function OwnedTotal(items: Items, user: UserId): int {
    SumOver(OwnedNames(items, user), n => Qty(items, n))
  }

  /** `_get_usage_for_user` as written: the comprehension binds the dict key
      (the name) to `qty`, so `sum` meets a string as soon as the user owns
      anything; an evicted entry fails earlier, on `.owner_id`. */
  function UsageAsWritten(items: Items, user: UserId): (r: Result<int, InventoryError>)
    ensures r.Failure? <==> HasEvicted(items) || OwnedNames(items, user) != {}
    ensures r.Failure? ==> r.error == if HasEvicted(items) then AttributeError else TypeError
    ensures r.Success? ==> r.value == 0
  {
    if HasEvicted(items) then Failure(AttributeError)
    else if OwnedNames(items, user) != {} then Failure(TypeError)
    else Success(0)
  }

  /** The usage computed by summing owned quantities, what the comment in
      `add_item_by` and the quantities read by `update_capacity` intend; an
      evicted entry still fails on `.owner_id`. */
  ghost function Usage(items: Items, user: UserId): (r: Result<int, InventoryError>)
    ensures r.Failure? <==> HasEvicted(items)
    ensures r.Failure? ==> r.error == AttributeError
    ensures r.Success? ==> r.value == OwnedTotal(items, user)
  {
    if HasEvicted(items) then Failure(AttributeError) else Success(OwnedTotal(items, user))
  }

  /** The usage as written and as intended part ways on every user who owns a
      positive quantity: the one raises, the other counts it. */
  lemma UsageAsWrittenRaisesForOwners(items: Items, user: UserId, n: Name)
    requires !HasEvicted(items) && n in OwnedNames(items, user) && Qty(items, n) > 0
    requires forall m :: m in OwnedNames(items, user) ==> Qty(items, m) >= 0
    ensures UsageAsWritten(items, user) == Failure(TypeError)
    ensures Usage(items, user).Success? && Usage(items, user).value > 0
  {
    var owned := OwnedNames(items, user);
    SumOverRemove(owned, m => Qty(items, m), n);
    SumOverNonNegative(owned - {n}, m => Qty(items, m));
  }

  lemma {:induction false} SumOverNonNegative(keys: set<Name>, f: Name -> int)
    requires forall k :: k in keys ==> f(k) >= 0
    ensures SumOver(keys, f) >= 0
    decreases keys
  {
    if keys != {} {
      var k :| k in keys;
      SumOverRemove(keys, f, k);
      SumOverNonNegative(keys - {k}, f);
    }
  }

  /** The loop `sum` runs for the intended usage: one owned live entry at a time. */
  method UsageForUser(items: Items, user: UserId) returns (r: Result<int, InventoryError>)
    ensures r == Usage(items, user)
  {
    var names := items.Keys;
    var total := 0;
    ghost var done: set<Name> := {};
    ghost var f := (m: Name) => Qty(items, m);
    while names != {}
      invariant names + done == items.Keys && names !! done
      invariant forall m :: m in done ==> items[m].Some?
      invariant total == SumOver(done * OwnedNames(items, user), f)
      decreases names
    {
      var n :| n in names;
      if items[n].None? {
        return Failure(AttributeError);
      }
      if items[n].value.owner == Some(user) {
        assert (done + {n}) * OwnedNames(items, user) == done * OwnedNames(items, user) + {n};
        SumOverAdd(done * OwnedNames(items, user), f, n);
        total := total + items[n].value.quantity;
      } else {
        assert (done + {n}) * OwnedNames(items, user) == done * OwnedNames(items, user);
      }
      names := names - {n};
      done := done + {n};
    }
    assert done * OwnedNames(items, user) == OwnedNames(items, user);
    return Success(total);
  }

  /** What `add_item_by` returns: False, the quantity added, or "" when the name
      is taken. */
  datatype AddByResult = Refused | Added(quantity: int) | NameTaken

  /** `add_item_by`, with the intended usage. */
  ghost function AddItemByOn(users: map<UserId, int>, items: Items, user: UserId, name: Name, quantity: int)
    : (r: (Items, Result<AddByResult, InventoryError>))
    ensures r.1.Success? && r.1.value != Added(quantity) ==> r.0 == items
    ensures r.1.Failure? ==> r.0 == items && r.1.error == AttributeError
    ensures r.1 == Success(Refused) <==>
      user !in users || quantity > users[user]
      || (!HasEvicted(items) && quantity + OwnedTotal(items, user) > users[user])
    ensures r.1.Failure? <==> user in users && quantity <= users[user] && HasEvicted(items)
    ensures r.1 == Success(Added(quantity)) <==>
      && user in users && quantity <= users[user] && !HasEvicted(items)
      && quantity + OwnedTotal(items, user) <= users[user] && name !in items
    ensures r.1 == Success(Added(quantity)) ==> r.0 == items[name := Some(Item(quantity, Some(user)))]
  {
    if user !in users || quantity > users[user] then (items, Success(Refused))
    else
      var usage := Usage(items, user);
      if usage.Failure? then (items, Failure(usage.error))
      else if quantity + usage.value > users[user] then (items, Success(Refused))
      else
        var (items', added) := AddItemOn(items, name, quantity, Some(user));
        (items', if added then Success(Added(quantity)) else Success(NameTaken))
  }

  /** A successful `add_item_by` keeps the user within capacity: the owned total
      grows by exactly the quantity added and stays at most the capacity. */
  lemma AddItemByWithinCapacity(users: map<UserId, int>, items: Items, user: UserId, name: Name, quantity: int)
    requires AddItemByOn(users, items, user, name, quantity).1 == Success(Added(quantity))
    ensures var items' := AddItemByOn(users, items, user, name, quantity).0;
      && OwnedTotal(items', user) == OwnedTotal(items, user) + quantity
      && OwnedTotal(items', user) <= users[user]
  {
    var items' := items[name := Some(Item(quantity, Some(user)))];
    assert OwnedNames(items', user) == OwnedNames(items, user) + {name};
    SumOverAdd(OwnedNames(items, user), n => Qty(items', n), name);
    SumOverExt(OwnedNames(items, user), n => Qty(items', n), n => Qty(items, n));
  }

  /** The order `sorted` puts `(quantity, name)` tuples in: quantity first,
      then name. */
  function QtyThenName(items: Items): (Name, Name) -> bool {
    (a: Name, b: Name) => Qty(items, a) < Qty(items, b) || (Qty(items, a) == Qty(items, b) && LexLt(a, b))
  }

  lemma QtyThenNameIsStrictTotalOrder(items: Items)
    ensures StrictTotalOrder(QtyThenName(items))
  {
    var lt := QtyThenName(items);
    LexIsStrictTotalOrder();
    forall a, b, c | lt(a, b) && lt(b, c) ensures lt(a, c) {
      assert LexLt(a, b) && LexLt(b, c) ==> LexLt(a, c);
    }
  }

  /** The names in a run. */
  function Names(s: seq<Name>): (r: set<Name>)
    ensures forall n :: n in r <==> n in s
  {
    set n | n in s
  }

  /** The sum of the quantities of a run of names. */
  function SumQty(items: Items, s: seq<Name>): int
    decreases |s|
  {
    if s == [] then 0 else Qty(items, s[0]) + SumQty(items, s[1..])
  }

  lemma {:induction false} SumQtyAppend(items: Items, a: seq<Name>, b: seq<Name>)
    ensures SumQty(items, a + b) == SumQty(items, a) + SumQty(items, b)
    decreases |a|
  {
    if a == [] {
      assert a + b == b;
    } else {
      assert (a + b)[0] == a[0];
      assert (a + b)[1..] == a[1..] + b;
      SumQtyAppend(items, a[1..], b);
    }
  }

  /** Popping the last name of a run takes its quantity off the sum. */
  lemma SumQtyPopLast(items: Items, s: seq<Name>, j: nat, k: nat)
    requires j < k <= |s|
    ensures SumQty(items, s[j..k]) == SumQty(items, s[j..k - 1]) + Qty(items, s[k - 1])
  {
    assert s[j..k] == s[j..k - 1] + [s[k - 1]];
    SumQtyAppend(items, s[j..k - 1], [s[k - 1]]);
    assert [s[k - 1]][1..] == [];
  }

  /** Summing a run without repeats is summing the set of its names. */
  lemma {:induction false} SumQtyIsSumOver(items: Items, s: seq<Name>)
    requires Distinct(s)
    ensures SumQty(items, s) == SumOver(Names(s), n => Qty(items, n))
    decreases |s|
  {
    if s != [] {
      assert Distinct(s[1..]) by {
        forall i, j | 0 <= i < j < |s[1..]| ensures s[1..][i] != s[1..][j] {
          assert s[1..][i] == s[i + 1] && s[1..][j] == s[j + 1];
        }
      }
      SumQtyIsSumOver(items, s[1..]);
      forall i | 0 <= i < |s[1..]| ensures s[1..][i] != s[0] {
        assert s[1..][i] == s[i + 1];
      }
      assert Names(s[1..]) == Names(s) - {s[0]};
      SumOverRemove(Names(s), n => Qty(items, n), s[0]);
    }
  }

  /** `items` with the given names evicted. */
  function Evicted(items: Items, names: set<Name>): (r: Items)
    ensures r.Keys == items.Keys
    ensures forall n :: n in items ==> r[n] == if n in names then None else items[n]
  {
    map n | n in items :: if n in names then None else items[n]
  }

  lemma EvictNone(items: Items, stack: seq<Name>, k: nat)
    requires k <= |stack|
    ensures Evicted(items, Names(stack[k..k])) == items
  {
    assert Names(stack[k..k]) == {};
  }

  /** Evicting the name on top of a run, then the rest of the run below it, is
      evicting the whole run. */
  lemma EvictPopOne(items: Items, items': Items, stack: seq<Name>, j: nat, k: nat)
    requires j < k <= |stack| && stack[k - 1] in items && items' == items[stack[k - 1] := None]
    ensures Evicted(items', Names(stack[j..k - 1])) == Evicted(items, Names(stack[j..k]))
  {
    assert Names(stack[j..k]) == Names(stack[j..k - 1]) + {stack[k - 1]} by {
      assert stack[j..k] == stack[j..k - 1] + [stack[k - 1]];
    }
    EvictOneMore(items, Names(stack[j..k - 1]), stack[k - 1]);
  }

  lemma EvictOneMore(items: Items, names: set<Name>, top: Name)
    requires top in items
    ensures Evicted(items[top := None], names) == Evicted(items, names + {top})
  {
  }

  /** The `while` loop of `update_capacity`. What is left of the sorted list is
      `stack[..k]`; each round pops its last (largest) entry, writes `None`
      under that name and adds the quantity recorded in the tuple, taken from
      `items0`. */
  function Evict(items0: Items, items: Items, stack: seq<Name>, k: nat, usage: int, removed: int, capacity: int)
    : (r: (Items, Result<int, InventoryError>))
    requires k <= |stack|
    ensures r.1.Success? ==> usage - r.1.value <= capacity
    ensures r.1.Failure? ==> r.1.error == IndexError
    decreases k
  {
    if usage - removed <= capacity then (items, Success(removed))
    else if k == 0 then (items, Failure(IndexError))
    else
      var top := stack[k - 1];
      Evict(items0, items[top := None], stack, k - 1, usage, removed + Qty(items0, top), capacity)
  }

  /** How much of the sorted list is left when the loop of `update_capacity`
      stops. */
  ghost function StopPoint(items0: Items, stack: seq<Name>, k: nat, usage: int, removed: int, capacity: int): (j: nat)
    requires k <= |stack|
    ensures j <= k
    decreases k
  {
    if usage - removed <= capacity || k == 0 then k
    else StopPoint(items0, stack, k - 1, usage, removed + Qty(items0, stack[k - 1]), capacity)
  }

  /** The loop evicts exactly the names popped off the top of the list. */
  lemma {:induction false} EvictRemovesTheTop(items0: Items, items: Items, stack: seq<Name>, k: nat,
                                                usage: int, removed: int, capacity: int)
    requires k <= |stack| && forall i :: 0 <= i < k ==> stack[i] in items
    ensures var j := StopPoint(items0, stack, k, usage, removed, capacity);
      Evict(items0, items, stack, k, usage, removed, capacity).0 == Evicted(items, Names(stack[j..k]))
    decreases k
  {
    if usage - removed <= capacity || k == 0 {
      EvictNone(items, stack, k);
    } else {
      var removed' := removed + Qty(items0, stack[k - 1]);
      var items' := items[stack[k - 1] := None];
      var j := StopPoint(items0, stack, k - 1, usage, removed', capacity);
      assert StopPoint(items0, stack, k, usage, removed, capacity) == j;
      calc {
        Evict(items0, items, stack, k, usage, removed, capacity).0;
        Evict(items0, items', stack, k - 1, usage, removed', capacity).0;
        { EvictRemovesTheTop(items0, items', stack, k - 1, usage, removed', capacity); }
        Evicted(items', Names(stack[j..k - 1]));
        { EvictPopOne(items, items', stack, j, k); }
        Evicted(items, Names(stack[j..k]));
      }
    }
  }

  /** The loop counts the quantities of the names it pops; it fails only after
      popping everything while the usage left is still above capacity. */
  lemma {:induction false} EvictCountsTheTop(items0: Items, items: Items, stack: seq<Name>, k: nat,
                                               usage: int, removed: int, capacity: int)
    requires k <= |stack|
    ensures var j := StopPoint(items0, stack, k, usage, removed, capacity);
      var r := Evict(items0, items, stack, k, usage, removed, capacity);
      && (r.1.Success? ==> r.1.value == removed + SumQty(items0, stack[j..k]))
      && (r.1.Failure? ==> j == 0 && usage - removed - SumQty(items0, stack[j..k]) > capacity)
    decreases k
  {
    var j := StopPoint(items0, stack, k, usage, removed, capacity);
    if usage - removed <= capacity || k == 0 {
      assert stack[k..k] == [];
    } else {
      var top := stack[k - 1];
      var removed' := removed + Qty(items0, top);
      var items' := items[top := None];
      assert j == StopPoint(items0, stack, k - 1, usage, removed', capacity);
      var r := Evict(items0, items', stack, k - 1, usage, removed', capacity);
      assert Evict(items0, items, stack, k, usage, removed, capacity) == r;
      EvictCountsTheTop(items0, items', stack, k - 1, usage, removed', capacity);
      SumQtyPopLast(items0, stack, j, k);
      assert removed' + SumQty(items0, stack[j..k - 1]) == removed + SumQty(items0, stack[j..k]);
    }
  }

  /** The loop stops as soon as the usage left fits: at every point before it
      stopped, the usage left was still above capacity. */
  lemma {:induction false} EvictStopsAsSoonAsItFits(items0: Items, stack: seq<Name>, k: nat,
                                                      usage: int, removed: int, capacity: int)
    requires k <= |stack|
    ensures var j := StopPoint(items0, stack, k, usage, removed, capacity);
      forall j' :: j < j' <= k ==> usage - removed - SumQty(items0, stack[j'..k]) > capacity
    decreases k
  {
    var j := StopPoint(items0, stack, k, usage, removed, capacity);
    if !(usage - removed <= capacity || k == 0) {
      var removed' := removed + Qty(items0, stack[k - 1]);
      EvictStopsAsSoonAsItFits(items0, stack, k - 1, usage, removed', capacity);
      forall j' | j < j' <= k ensures usage - removed - SumQty(items0, stack[j'..k]) > capacity {
        if j' < k {
          SumQtyPopLast(items0, stack, j', k);
        } else {
          assert stack[j'..k] == [];
        }
      }
    }
  }

  /** What `update_capacity` returns: "" for an unknown user, "0" when the
      usage already fits, otherwise the quantity removed. */
  datatype CapacityResult = UnknownUser | WithinCapacity | Removed(amount: int)

  lemma DistinctOfSorted(s: seq<Name>, lt: (Name, Name) -> bool)
    requires StrictTotalOrder(lt) && SortedBy(s, lt)
    ensures Distinct(s)
  {
    forall i, j | 0 <= i < j < |s| ensures s[i] != s[j] {
      assert lt(s[i], s[j]);
    }
  }

  /** The owned names in the order `sorted` gives their `(quantity, name)` tuples. */
  function SortedOwned(items: Items, user: UserId): (s: seq<Name>)
    ensures Distinct(s) && SortedBy(s, QtyThenName(items))
    ensures Names(s) == OwnedNames(items, user)
  {
    QtyThenNameIsStrictTotalOrder(items);
    var s := Enumerate(OwnedNames(items, user), QtyThenName(items));
    DistinctOfSorted(s, QtyThenName(items));
    s
  }

  /** `update_capacity`, with the intended usage. The stored capacity is never
      written back, so `users` is not part of the result. */
  ghost function UpdateCapacityOn(users: map<UserId, int>, items: Items, user: UserId, capacity: int)
    : (r: (Items, Result<CapacityResult, InventoryError>))
    ensures r.1 == Success(UnknownUser) <==> user !in users
    ensures r.1 == Failure(AttributeError) <==> user in users && HasEvicted(items)
    ensures r.1 == Success(WithinCapacity) <==> user in users && !HasEvicted(items) && OwnedTotal(items, user) <= capacity
    ensures r.1.Failure? ==> r.1.error in {AttributeError, IndexError}
    ensures (r.1.Success? && !r.1.value.Removed?) || r.1 == Failure(AttributeError) ==> r.0 == items
  {
    if user !in users then (items, Success(UnknownUser))
    else
      var usage := Usage(items, user);
      if usage.Failure? then (items, Failure(usage.error))
      else if usage.value <= capacity then (items, Success(WithinCapacity))
      else
        var stack := SortedOwned(items, user);
        var (items', out) := Evict(items, items, stack, |stack|, usage.value, 0, capacity);
        (items', if out.Success? then Success(Removed(out.value)) else Failure(out.error))
  }

  /** A run without repeats cut in two gives two runs without repeats that
      share no name. */
  lemma SplitDistinct(s: seq<Name>, j: nat)
    requires Distinct(s) && j <= |s|
    ensures Distinct(s[..j]) && Distinct(s[j..])
    ensures Names(s[..j]) * Names(s[j..]) == {}
    ensures Names(s) == Names(s[..j]) + Names(s[j..])
  {
    assert s == s[..j] + s[j..];
    forall a, b | 0 <= a < b < j ensures s[..j][a] != s[..j][b] {
      assert s[..j][a] == s[a] && s[..j][b] == s[b];
    }
    forall a, b | 0 <= a < b < |s| - j ensures s[j..][a] != s[j..][b] {
      assert s[j..][a] == s[j + a] && s[j..][b] == s[j + b];
    }
    forall n | n in s[..j] ensures n !in s[j..] {
      var a :| 0 <= a < j && s[..j][a] == n;
      forall b | 0 <= b < |s| - j ensures s[j..][b] != n {
        assert s[j..][b] == s[j + b] && s[..j][a] == s[a];
      }
    }
  }

  /** Evicting some of a user's names leaves the others owned, each with its
      quantity. */
  lemma EvictedOwned(items: Items, user: UserId, keep: set<Name>, gone: set<Name>)
    requires OwnedNames(items, user) == keep + gone && keep * gone == {}
    ensures OwnedNames(Evicted(items, gone), user) == keep
    ensures OwnedTotal(Evicted(items, gone), user) == SumOver(keep, n => Qty(items, n))
  {
    var after := Evicted(items, gone);
    forall n ensures n in OwnedNames(after, user) <==> n in keep {
      assert n !in keep * gone;
    }
    SumOverExt(keep, n => Qty(after, n), n => Qty(items, n));
  }

  /** Evicting the top `|stack| - j` of the sorted owned names leaves the
      bottom `j` owned, and splits the owned total accordingly. */
  lemma EvictTopLeaves(items: Items, user: UserId, j: nat)
    requires j <= |SortedOwned(items, user)|
    ensures var stack := SortedOwned(items, user);
      var after := Evicted(items, Names(stack[j..]));
      && OwnedNames(after, user) == Names(stack[..j])
      && OwnedNames(items, user) - OwnedNames(after, user) == Names(stack[j..])
      && OwnedTotal(after, user) == SumQty(items, stack[..j])
      && OwnedTotal(items, user) == SumQty(items, stack[..j]) + SumQty(items, stack[j..])
  {
    var stack := SortedOwned(items, user);
    SplitDistinct(stack, j);
    EvictedOwned(items, user, Names(stack[..j]), Names(stack[j..]));
    SumQtyIsSumOver(items, stack[..j]);
    SumQtyIsSumOver(items, stack);
    assert stack[..j] + stack[j..] == stack;
    SumQtyAppend(items, stack[..j], stack[j..]);
  }

  /** The eviction branch of `update_capacity`, spelled out. */
  lemma UpdateCapacityUnfold(users: map<UserId, int>, items: Items, user: UserId, capacity: int)
    requires UpdateCapacityOn(users, items, user, capacity).1.Success?
    requires UpdateCapacityOn(users, items, user, capacity).1.value.Removed?
    ensures user in users && !HasEvicted(items) && OwnedTotal(items, user) > capacity
    ensures var stack := SortedOwned(items, user);
      var r := Evict(items, items, stack, |stack|, OwnedTotal(items, user), 0, capacity);
      r.1.Success? && UpdateCapacityOn(users, items, user, capacity) == (r.0, Success(Removed(r.1.value)))
  {
  }

  /** A successful eviction that had work to do pops a non-empty top part of
      the list, and the last name popped was needed. */
  lemma EvictPopsSomething(items: Items, stack: seq<Name>, usage: int, capacity: int)
    requires usage > capacity && forall n :: n in stack ==> n in items
    requires Evict(items, items, stack, |stack|, usage, 0, capacity).1.Success?
    ensures var r := Evict(items, items, stack, |stack|, usage, 0, capacity);
      var j := StopPoint(items, stack, |stack|, usage, 0, capacity);
      && j < |stack|
      && r.0 == Evicted(items, Names(stack[j..]))
      && r.1.value == SumQty(items, stack[j..]) == Qty(items, stack[j]) + SumQty(items, stack[j + 1..])
      && usage - SumQty(items, stack[j + 1..]) > capacity
  {
    var k := |stack|;
    var j := StopPoint(items, stack, k, usage, 0, capacity);
    var r := Evict(items, items, stack, k, usage, 0, capacity);
    assert r.0 == Evicted(items, Names(stack[j..])) by {
      EvictRemovesTheTop(items, items, stack, k, usage, 0, capacity);
      assert stack[j..k] == stack[j..];
    }
    assert j < k && r.1.value == SumQty(items, stack[j..]) by {
      EvictCountsTheTop(items, items, stack, k, usage, 0, capacity);
      assert stack[j..k] == stack[j..];
      assert stack[k..] == [];
    }
    assert stack[j..][1..] == stack[j + 1..];
    assert usage - SumQty(items, stack[j + 1..]) > capacity by {
      EvictStopsAsSoonAsItFits(items, stack, k, usage, 0, capacity);
      assert stack[j + 1..k] == stack[j + 1..];
    }
  }

  /** In a sorted run, everything from position `j` on ranks above everything
      before it, and the entry at `j` is the lowest of the later part. */
  lemma SortedSplit(s: seq<Name>, lt: (Name, Name) -> bool, j: nat)
    requires SortedBy(s, lt) && j < |s|
    ensures forall a, b :: a in s[j..] && b in s[..j] ==> lt(b, a)
    ensures forall x :: x in s[j..] && x != s[j] ==> lt(s[j], x)
  {
    forall a, b | a in s[j..] && b in s[..j] ensures lt(b, a) {
      var ia :| 0 <= ia < |s| - j && s[j..][ia] == a;
      var ib :| 0 <= ib < j && s[..j][ib] == b;
      assert s[j + ia] == a && s[ib] == b;
    }
    forall x | x in s[j..] && x != s[j] ensures lt(s[j], x) {
      var ix :| 0 <= ix < |s| - j && s[j..][ix] == x;
      assert s[j + ix] == x;
    }
  }

  /** After an eviction the user's owned total is the old total less the amount
      removed, and it fits the new capacity; only the user's own live entries
      were touched, and each of them now holds `None`. */
  lemma UpdateCapacityFits(users: map<UserId, int>, items: Items, user: UserId, capacity: int)
    requires UpdateCapacityOn(users, items, user, capacity).1.Success?
    requires UpdateCapacityOn(users, items, user, capacity).1.value.Removed?
    ensures var (items', out) := UpdateCapacityOn(users, items, user, capacity);
      var gone := OwnedNames(items, user) - OwnedNames(items', user);
      && OwnedTotal(items', user) == OwnedTotal(items, user) - out.value.amount <= capacity
      && gone != {}
      && items'.Keys == items.Keys
      && (forall n :: n in items && n !in gone ==> items'[n] == items[n])
      && (forall n :: n in gone ==> items'[n] == None)
  {
    UpdateCapacityUnfold(users, items, user, capacity);
    var stack := SortedOwned(items, user);
    EvictPopsSomething(items, stack, OwnedTotal(items, user), capacity);
    var j := StopPoint(items, stack, |stack|, OwnedTotal(items, user), 0, capacity);
    EvictTopLeaves(items, user, j);
    assert stack[j] in OwnedNames(items, user) - OwnedNames(Evicted(items, Names(stack[j..])), user);
  }

  /** The entries evicted all rank above every owned entry kept, in the order
      `sorted` gives `(quantity, name)` tuples (largest quantity first), and
      without the lowest-ranked of them the usage would still be above the new
      capacity. */
  lemma UpdateCapacityEvictsLargestFirst(users: map<UserId, int>, items: Items, user: UserId, capacity: int)
    requires UpdateCapacityOn(users, items, user, capacity).1.Success?
    requires UpdateCapacityOn(users, items, user, capacity).1.value.Removed?
    ensures var (items', out) := UpdateCapacityOn(users, items, user, capacity);
      var gone := OwnedNames(items, user) - OwnedNames(items', user);
      && (forall a, b :: a in gone && b in OwnedNames(items', user) ==> QtyThenName(items)(b, a))
      && exists e :: e in gone && (forall x :: x in gone && x != e ==> QtyThenName(items)(e, x))
           && OwnedTotal(items, user) - (out.value.amount - Qty(items, e)) > capacity
  {
    UpdateCapacityUnfold(users, items, user, capacity);
    var stack := SortedOwned(items, user);
    EvictPopsSomething(items, stack, OwnedTotal(items, user), capacity);
    var j := StopPoint(items, stack, |stack|, OwnedTotal(items, user), 0, capacity);
    EvictTopLeaves(items, user, j);
    SortedSplit(stack, QtyThenName(items), j);
    assert stack[j] in stack[j..];
  }

  /** The sorted list runs out only when the capacity is below 0: popping
      everything leaves a usage of 0. */
  lemma UpdateCapacityPopsEmptyOnlyBelowZero(users: map<UserId, int>, items: Items, user: UserId, capacity: int)
    ensures UpdateCapacityOn(users, items, user, capacity).1 == Failure(IndexError) ==> capacity < 0
  {
    if user in users && !HasEvicted(items) && OwnedTotal(items, user) > capacity {
      var stack := SortedOwned(items, user);
      EvictTopLeaves(items, user, 0);
      assert stack[..0] == [] && stack[0..] == stack;
      EvictEmptiesOnlyBelowZero(items, stack, OwnedTotal(items, user), capacity);
    }
  }

  /** Popping a whole run whose quantities make up the usage leaves nothing in
      use, so the loop can still be above capacity only if the capacity is
      negative. */
  lemma EvictEmptiesOnlyBelowZero(items: Items, stack: seq<Name>, usage: int, capacity: int)
    requires usage == SumQty(items, stack)
    ensures Evict(items, items, stack, |stack|, usage, 0, capacity).1.Failure? ==> capacity < 0
  {
    EvictCountsTheTop(items, items, stack, |stack|, usage, 0, capacity);
    assert stack[0..|stack|] == stack;
  }

  /** `find_item`'s test on a name: with the slashes around it stripped and
      split on `/`, its first segment starts with the prefix (itself stripped
      of slashes) and its last segment starts with the suffix. */
  predicate NameMatches(name: Name, prefix: string, suffix: string) {
    var parts := Split(Strip(name, '/'), '/');
    StartsWith(parts[0], Strip(prefix, '/')) && StartsWith(parts[|parts| - 1], suffix)
  }

  /** A name without a slash is one segment, so it matches when it starts
      with both the stripped prefix and the suffix. */
  lemma PlainNameMatches(name: Name, prefix: string, suffix: string)
    requires '/' !in name
    ensures NameMatches(name, prefix, suffix) <==> StartsWith(name, Strip(prefix, '/')) && StartsWith(name, suffix)
  {
    StripAbsent(name, '/');
    SplitAbsent(name, '/');
  }

  /** The names `find_item` collects. */
  function Hits(items: Items, prefix: string, suffix: string): (r: set<Name>)
    ensures forall n :: n in r <==> n in items && NameMatches(n, prefix, suffix)
  {
    set n | n in items && NameMatches(n, prefix, suffix)
  }

  /** One entry of the listing, `f"{item} ({qty})"`. */
  function Entry(name: Name, quantity: int): (r: string)
    ensures |r| == |name| + |IntToString(quantity)| + 3
    ensures r[..|name|] == name && r[|name|..|name| + 2] == " ("
    ensures r[|name| + 2..|r| - 1] == IntToString(quantity) && r[|r| - 1] == ')'
  {
    var r := name + " (" + IntToString(quantity) + ")";
    assert r[..|name|] == name && r[|name|..|name| + 2] == " (" && r[|name| + 2..|r| - 1] == IntToString(quantity);
    r
  }

  /** The entries of one bucket of `matching`, under the bucket's quantity. */
  function Labelled(names: seq<Name>, quantity: int): seq<string> {
    seq(|names|, i requires 0 <= i < |names| => Entry(names[i], quantity))
  }

  /** Each name with its own quantity. */
  function Shown(items: Items, names: seq<Name>): seq<string> {
    seq(|names|, i requires 0 <= i < |names| => Entry(names[i], Qty(items, names[i])))
  }

  /** Larger first: `sorted(..., reverse=True)` on keys that never tie. */
  function Descending(): (int, int) -> bool {
    (a: int, b: int) => a > b
  }

  lemma DescendingIsStrictTotalOrder()
    ensures StrictTotalOrder(Descending())
  {
  }

  /** `sorted` on a list of distinct names. */
  function ByName(names: set<Name>): (r: seq<Name>)
    ensures |r| == |names| && SortedBy(r, LexLt)
    ensures forall n :: n in r <==> n in names
  {
    LexIsStrictTotalOrder();
    Enumerate(names, LexLt)
  }

  /** The names among `names` that hold quantity `q`. */
  function Holding(items: Items, names: set<Name>, q: int): (r: set<Name>)
    ensures forall n :: n in r <==> n in names && Qty(items, n) == q
  {
    set n | n in names && Qty(items, n) == q
  }

  /** The `matching` dict: each quantity met among `names`, with the names
      that hold it. */
  function Matching(items: Items, names: set<Name>): (m: map<int, set<Name>>)
    ensures forall n :: n in names ==> Qty(items, n) in m
    ensures forall q :: q in m ==> m[q] == Holding(items, names, q) != {}
  {
    var qs := set n | n in names :: Qty(items, n);
    forall q | q in qs ensures Holding(items, names, q) != {} {
      var n :| n in names && Qty(items, n) == q;
      assert n in Holding(items, names, q);
    }
    map q | q in qs :: Holding(items, names, q)
  }

  /** The buckets for the quantities `qs`, each sorted by name. */
  function Buckets(matching: map<int, set<Name>>, qs: seq<int>): (r: seq<seq<Name>>)
    requires forall i :: 0 <= i < |qs| ==> qs[i] in matching
    ensures |r| == |qs| && forall i :: 0 <= i < |qs| ==> r[i] == ByName(matching[qs[i]])
  {
    seq(|qs|, i requires 0 <= i < |qs| => ByName(matching[qs[i]]))
  }

  /** The keys of `matching`, largest first. */
  function QuantitiesDown(matching: map<int, set<Name>>): (qs: seq<int>)
    ensures SortedBy(qs, Descending())
    ensures forall q :: q in qs <==> q in matching
    ensures |qs| == |matching|
  {
    DescendingIsStrictTotalOrder();
    var qs := Enumerate(matching.Keys, Descending());
    SortedCard(qs, Descending());
    assert (set x | x in qs) == matching.Keys;
    qs
  }

  /** Each bucket of `matching` joined, largest quantity first. */
  function BucketLines(matching: map<int, set<Name>>): (r: seq<string>)
    ensures |r| == |QuantitiesDown(matching)| == |matching|
  {
    var qs := QuantitiesDown(matching);
    assert forall i :: 0 <= i < |qs| ==> qs[i] in matching;
    var groups := Buckets(matching, qs);
    assert |groups| == |qs|;
    seq(|qs|, i requires 0 <= i < |qs| => Join(", ", Labelled(groups[i], qs[i])))
  }

  /** What `find_item` builds from the collected names: each bucket joined,
      then the buckets joined. */
  function Listing(items: Items, hits: set<Name>): (r: string)
    ensures r == Join(", ", Shown(items, Ranked(items, hits)))
  {
    ListingIsRanked(items, hits);
    Join(", ", BucketLines(Matching(items, hits)))
  }

  /** `find_item`: a matching name that was evicted raises on `.quantity`;
      otherwise the buckets go largest quantity first, each lists its names in
      order as `name (quantity)`, and everything is joined with ", ". */
  function FindOn(items: Items, prefix: string, suffix: string): (r: Result<string, InventoryError>)
    ensures r.Failure? <==> exists n :: n in items && items[n].None? && NameMatches(n, prefix, suffix)
    ensures r.Failure? ==> r.error == AttributeError
  {
    var hits := Hits(items, prefix, suffix);
    if exists n :: n in hits && items[n].None? then Failure(AttributeError)
    else Success(Listing(items, hits))
  }

  /** The order the listing promises: quantity descending, ties by name. */
  function QtyDescThenName(items: Items): (Name, Name) -> bool {
    (a: Name, b: Name) => Qty(items, a) > Qty(items, b) || (Qty(items, a) == Qty(items, b) && LexLt(a, b))
  }

  lemma QtyDescThenNameIsStrictTotalOrder(items: Items)
    ensures StrictTotalOrder(QtyDescThenName(items))
  {
    var lt := QtyDescThenName(items);
    LexIsStrictTotalOrder();
    forall a, b, c | lt(a, b) && lt(b, c) ensures lt(a, c) {
      assert LexLt(a, b) && LexLt(b, c) ==> LexLt(a, c);
    }
  }

  /** The matching names in that order. */
  function Ranked(items: Items, names: set<Name>): (r: seq<Name>)
    ensures SortedBy(r, QtyDescThenName(items))
    ensures forall n :: n in r <==> n in names
  {
    QtyDescThenNameIsStrictTotalOrder(items);
    Enumerate(names, QtyDescThenName(items))
  }

  /** The buckets, laid end to end, hold the collected names whose quantity
      is among `qs`. */
  lemma {:induction false} FlattenBucketsHolds(items: Items, hits: set<Name>, qs: seq<int>)
    requires forall i :: 0 <= i < |qs| ==> qs[i] in Matching(items, hits)
    ensures forall n :: n in Flatten(Buckets(Matching(items, hits), qs)) <==> n in hits && Qty(items, n) in qs
    decreases |qs|
  {
    var m := Matching(items, hits);
    if qs != [] {
      var gs := Buckets(m, qs);
      assert gs[1..] == Buckets(m, qs[1..]);
      FlattenBucketsHolds(items, hits, qs[1..]);
      assert forall n :: n in gs[0] <==> n in hits && Qty(items, n) == qs[0];
      assert forall q :: q in qs <==> q == qs[0] || q in qs[1..];
    }
  }

  /** The buckets, laid end to end, are in quantity-descending, then name
      order. */
  lemma {:induction false} FlattenBucketsSorted(items: Items, hits: set<Name>, qs: seq<int>)
    requires SortedBy(qs, Descending())
    requires forall i :: 0 <= i < |qs| ==> qs[i] in Matching(items, hits)
    ensures SortedBy(Flatten(Buckets(Matching(items, hits), qs)), QtyDescThenName(items))
    decreases |qs|
  {
    var m := Matching(items, hits);
    if qs != [] {
      var gs := Buckets(m, qs);
      var lt := QtyDescThenName(items);
      assert gs[1..] == Buckets(m, qs[1..]);
      SortedDrop(qs, Descending());
      FlattenBucketsSorted(items, hits, qs[1..]);
      FlattenBucketsHolds(items, hits, qs[1..]);
      var g := gs[0];
      var rest := Flatten(gs[1..]);
      assert forall n :: n in g ==> Qty(items, n) == qs[0];
      BucketInOrder(items, g, qs[0]);
      HeadAboveTail(qs);
      BucketBeforeRest(items, g, rest, qs[0], qs[1..]);
      SortedAppend(g, rest, lt);
    }
  }

  /** In a descending run, the head is above everything after it. */
  lemma HeadAboveTail(qs: seq<int>)
    requires SortedBy(qs, Descending()) && |qs| > 0
    ensures forall k :: 0 <= k < |qs[1..]| ==> qs[0] > qs[1..][k]
  {
    forall k | 0 <= k < |qs[1..]| ensures qs[0] > qs[1..][k] {
      assert Descending()(qs[0], qs[k + 1]);
    }
  }

  /** A bucket, sorted by name, is already in listing order. */
  lemma BucketInOrder(items: Items, g: seq<Name>, q: int)
    requires SortedBy(g, LexLt)
    requires forall n :: n in g ==> Qty(items, n) == q
    ensures SortedBy(g, QtyDescThenName(items))
  {
    var lt := QtyDescThenName(items);
    forall i, j | 0 <= i < j < |g| ensures lt(g[i], g[j]) {
      assert LexLt(g[i], g[j]);
    }
  }

  /** The names of a bucket go before every name of a smaller quantity. */
  lemma BucketBeforeRest(items: Items, g: seq<Name>, rest: seq<Name>, q: int, later: seq<int>)
    requires forall n :: n in g ==> Qty(items, n) == q
    requires forall n :: n in rest ==> Qty(items, n) in later
    requires forall k :: 0 <= k < |later| ==> q > later[k]
    ensures forall x, y :: x in g && y in rest ==> QtyDescThenName(items)(x, y)
  {
    forall x, y | x in g && y in rest ensures QtyDescThenName(items)(x, y) {
      var k :| 0 <= k < |later| && later[k] == Qty(items, y);
    }
  }

  lemma ShownAppend(items: Items, a: seq<Name>, b: seq<Name>)
    ensures Shown(items, a + b) == Shown(items, a) + Shown(items, b)
  {
    var l, r := Shown(items, a + b), Shown(items, a) + Shown(items, b);
    forall i | 0 <= i < |l| ensures l[i] == r[i] {
      if i < |a| {
        assert (a + b)[i] == a[i] && r[i] == Shown(items, a)[i];
      } else {
        assert (a + b)[i] == b[i - |a|] && r[i] == Shown(items, b)[i - |a|];
      }
    }
  }

  /** Labelling names with a quantity they all hold shows them. */
  lemma LabelledIsShown(items: Items, names: seq<Name>, q: int)
    requires forall n :: n in names ==> Qty(items, n) == q
    ensures Labelled(names, q) == Shown(items, names)
  {
    forall i | 0 <= i < |names| ensures Labelled(names, q)[i] == Shown(items, names)[i] {
      assert names[i] in names;
    }
  }

  /** Showing names run by run is showing them all at once. */
  lemma {:induction false} ShownFlatten(items: Items, gs: seq<seq<Name>>)
    ensures Shown(items, Flatten(gs)) == Flatten(seq(|gs|, i requires 0 <= i < |gs| => Shown(items, gs[i])))
    decreases |gs|
  {
    if gs != [] {
      ShownFlatten(items, gs[1..]);
      var shown := seq(|gs|, i requires 0 <= i < |gs| => Shown(items, gs[i]));
      assert shown[1..] == seq(|gs[1..]|, i requires 0 <= i < |gs[1..]| => Shown(items, gs[1..][i]));
      ShownAppend(items, gs[0], Flatten(gs[1..]));
    }
  }

  /** The listing is every matching name, in descending order of quantity with
      ties broken by name, each shown as `name (quantity)` and separated by ", ":
      the bucket-by-bucket construction of `find_item` meets the order its
      docstring promises. */
  lemma FindListsByQuantityThenName(items: Items, prefix: string, suffix: string)
    requires FindOn(items, prefix, suffix).Success?
    ensures FindOn(items, prefix, suffix).value
         == Join(", ", Shown(items, Ranked(items, Hits(items, prefix, suffix))))
  {
    assert FindOn(items, prefix, suffix).value == Listing(items, Hits(items, prefix, suffix));
  }

  /** The bucket-by-bucket listing of a set of names is the flat ranked
      listing. */
  lemma ListingIsRanked(items: Items, hits: set<Name>)
    ensures Join(", ", BucketLines(Matching(items, hits))) == Join(", ", Shown(items, Ranked(items, hits)))
  {
    var matching := Matching(items, hits);
    var qs := QuantitiesDown(matching);
    var groups := Buckets(matching, qs);
    assert Flatten(groups) == Ranked(items, hits) by {
      FlattenBucketsHolds(items, hits, qs);
      FlattenBucketsSorted(items, hits, qs);
      QtyDescThenNameIsStrictTotalOrder(items);
      SortedUnique(Flatten(groups), Ranked(items, hits), QtyDescThenName(items));
    }
    forall i | 0 <= i < |qs| ensures groups[i] != [] {
      assert |groups[i]| == |matching[qs[i]]|;
    }
    JoinBuckets(items, groups, qs);
  }

  /** Joining labelled buckets, none empty and each holding names of its own
      quantity, is joining all their names shown with their quantities. */
  lemma JoinBuckets(items: Items, groups: seq<seq<Name>>, qs: seq<int>)
    requires |groups| == |qs|
    requires forall i :: 0 <= i < |qs| ==> groups[i] != []
    requires forall i, n :: 0 <= i < |qs| && n in groups[i] ==> Qty(items, n) == qs[i]
    ensures Join(", ", seq(|qs|, i requires 0 <= i < |qs| => Join(", ", Labelled(groups[i], qs[i]))))
         == Join(", ", Shown(items, Flatten(groups)))
  {
    var shown := seq(|groups|, i requires 0 <= i < |groups| => Shown(items, groups[i]));
    var lines := seq(|qs|, i requires 0 <= i < |qs| => Join(", ", Labelled(groups[i], qs[i])));
    assert lines == JoinEach(", ", shown) by {
      forall i | 0 <= i < |qs| ensures lines[i] == JoinEach(", ", shown)[i] {
        LabelledIsShown(items, groups[i], qs[i]);
      }
    }
    assert forall i :: 0 <= i < |shown| ==> shown[i] != [] by {
      forall i | 0 <= i < |shown| ensures shown[i] != [] {
        assert |shown[i]| == |groups[i]|;
      }
    }
    JoinNested(", ", shown);
    ShownFlatten(items, groups);
  }

  /** Filing one more name in `matching`: appended to its quantity's bucket,
      which is created if new. */
  lemma MatchingAdd(items: Items, names: set<Name>, n: Name)
    requires n !in names
    ensures var m := Matching(items, names);
      var q := Qty(items, n);
      Matching(items, names + {n}) == m[q := (if q in m then m[q] else {}) + {n}]
  {
    var m := Matching(items, names);
    var q := Qty(items, n);
    var m' := Matching(items, names + {n});
    var goal := m[q := (if q in m then m[q] else {}) + {n}];
    forall q' | q' in m' ensures q' in goal {
      var x :| x in Holding(items, names + {n}, q');
    }
    assert q !in m ==> Holding(items, names, q) == {};
    assert m'.Keys == goal.Keys;
    forall q' | q' in m' ensures m'[q'] == goal[q'] {
      HoldingAdd(items, names, n, q');
    }
  }

  /** Adding a name to the collected ones adds it to its own quantity's
      holders only. */
  lemma HoldingAdd(items: Items, names: set<Name>, n: Name, q: int)
    ensures Holding(items, names + {n}, q)
         == if q == Qty(items, n) then Holding(items, names, q) + {n} else Holding(items, names, q)
  {
  }

  /** The loop of `update_capacity`: pops the `(quantity, name)` tuples
      largest first, evicting each, until the usage left fits the capacity. */
  method EvictLargestFirst(items: Items, names: seq<Name>, usage: int, capacity: int)
    returns (items': Items, out: Result<int, InventoryError>)
    ensures (items', out) == Evict(items, items, names, |names|, usage, 0, capacity)
  {
    var sortedItems := seq(|names|, i requires 0 <= i < |names| => (Qty(items, names[i]), names[i]));
    var removedCount := 0;
    items' := items;
    while usage - removedCount > capacity
      invariant |sortedItems| <= |names|
      invariant forall i :: 0 <= i < |sortedItems| ==> sortedItems[i] == (Qty(items, names[i]), names[i])
      invariant Evict(items, items', names, |sortedItems|, usage, removedCount, capacity)
             == Evict(items, items, names, |names|, usage, 0, capacity)
      decreases |sortedItems|
    {
      if sortedItems == [] {
        return items', Failure(IndexError);
      }
      var rem := sortedItems[|sortedItems| - 1];
      sortedItems := sortedItems[..|sortedItems| - 1];
      items' := items'[rem.1 := None];
      removedCount := removedCount + rem.0;
    }
    return items', Success(removedCount);
  }

  /** The first loop of `find_item`: files each matching name under its
      quantity, failing on a matching name that was evicted. */
  method FileMatches(items: Items, prefix: string, suffix: string) returns (r: Result<map<int, set<Name>>, InventoryError>)
    ensures r.Failure? <==> exists n :: n in items && items[n].None? && NameMatches(n, prefix, suffix)
    ensures r.Failure? ==> r.error == AttributeError
    ensures r.Success? ==> r.value == Matching(items, Hits(items, prefix, suffix))
  {
    var matching: map<int, set<Name>> := map[];
    var rest := items.Keys;
    ghost var filed: set<Name> := {};
    while rest != {}
      invariant rest <= items.Keys
      invariant forall n :: n in filed <==> n in items && n !in rest && NameMatches(n, prefix, suffix)
      invariant forall n :: n in filed ==> items[n].Some?
      invariant matching == Matching(items, filed)
      decreases rest
    {
      var name :| name in rest;
      if NameMatches(name, prefix, suffix) {
        if items[name].None? {
          return Failure(AttributeError);
        }
        var q := items[name].value.quantity;
        MatchingAdd(items, filed, name);
        matching := matching[q := (if q in matching then matching[q] else {}) + {name}];
        filed := filed + {name};
      }
      rest := rest - {name};
    }
    assert filed == Hits(items, prefix, suffix);
    return Success(matching);
  }

  /** The rest of `find_item`: the buckets largest quantity first, each sorted
      by name and joined, then all joined. */
  method ListBuckets(matching: map<int, set<Name>>) returns (listing: string)
    ensures listing == Join(", ", BucketLines(matching))
  {
    DescendingIsStrictTotalOrder();
    var keys := SortSet(matching.Keys, Descending());
    ghost var lines := BucketLines(matching);
    var res: seq<string> := [];
    var i := 0;
    while i < |keys|
      invariant 0 <= i <= |keys| && keys == QuantitiesDown(matching) && |lines| == |keys|
      invariant res == lines[..i]
    {
      var q := keys[i];
      LexIsStrictTotalOrder();
      var names := SortSet(matching[q], LexLt);
      BucketLine(matching, i);
      TakeOneMore(lines, i);
      res := res + [Join(", ", Labelled(names, q))];
      i := i + 1;
    }
    assert lines[..i] == lines;
    return Join(", ", res);
  }

  lemma BucketLine(matching: map<int, set<Name>>, i: nat)
    requires i < |QuantitiesDown(matching)|
    ensures var q := QuantitiesDown(matching)[i];
      BucketLines(matching)[i] == Join(", ", Labelled(ByName(matching[q]), q))
  {
  }

  /** The inventory: items by name, and each user's capacity. */
  class InventorySystem {
    var items: Items
    var users: map<UserId, int>

    constructor ()
      ensures items == map[] && users == map[]
    {
      items, users := map[], map[];
    }

    method AddUser(user: UserId, capacity: int) returns (added: bool)
      modifies this`users
      ensures (users, added) == AddUserOn(old(users), user, capacity)
    {
      if user in users {
        return false;
      }
      users := users[user := capacity];
      return true;
    }

    method AddItem(name: Name, quantity: int, owner: Option<UserId>) returns (added: bool)
      modifies this`items
      ensures (items, added) == AddItemOn(old(items), name, quantity, owner)
    {
      if name in items {
        return false;
      }
      items := items[name := Some(Item(quantity, owner))];
      return true;
    }

    method AddItemBy(user: UserId, name: Name, quantity: int) returns (r: Result<AddByResult, InventoryError>)
      modifies this`items
      ensures (items, r) == AddItemByOn(users, old(items), user, name, quantity)
    {
      if user !in users || quantity > users[user] {
        return Success(Refused);
      }
      var usage := UsageForUser(items, user);
      if usage.Failure? {
        return Failure(usage.error);
      }
      if quantity + usage.value > users[user] {
        return Success(Refused);
      }
      var added := AddItem(name, quantity, Some(user));
      if added {
        return Success(Added(quantity));
      }
      return Success(NameTaken);
    }

    /** Pops the owned `(quantity, name)` tuples largest first, evicting each,
        until the usage left fits the new capacity. */
    method UpdateCapacity(user: UserId, capacity: int) returns (r: Result<CapacityResult, InventoryError>)
      modifies this`items
      ensures (items, r) == UpdateCapacityOn(users, old(items), user, capacity)
    {
      if user !in users {
        return Success(UnknownUser);
      }
      var usage := UsageForUser(items, user);
      if usage.Failure? {
        return Failure(usage.error);
      }
      if usage.value <= capacity {
        return Success(WithinCapacity);
      }
      QtyThenNameIsStrictTotalOrder(items);
      var names := SortSet(OwnedNames(items, user), QtyThenName(items));
      var out;
      items, out := EvictLargestFirst(items, names, usage.value, capacity);
      if out.Failure? {
        return Failure(out.error);
      }
      return Success(Removed(out.value));
    }

    method CopyItem(from: Name, to: Name) returns (copied: bool)
      modifies this`items
      ensures (items, copied) == CopyItemOn(old(items), from, to)
    {
      if to in items || from !in items {
        return false;
      }
      items := items[to := items[from]];
      return true;
    }

    method GetItemQuantity(name: Name) returns (r: Option<int>)
      ensures r == QuantityOf(items, name)
    {
      if name !in items || items[name].None? {
        return None;
      }
      return Some(items[name].value.quantity);
    }

    /** Files each matching name under its quantity, then lists the buckets
        largest quantity first, each sorted by name. */
    method FindItem(prefix: string, suffix: string) returns (r: Result<string, InventoryError>)
      ensures r == FindOn(items, prefix, suffix)
    {
      var matching := FileMatches(items, prefix, suffix);
      if matching.Failure? {
        return Failure(matching.error);
      }
      var listing := ListBuckets(matching.value);
      return Success(listing);
    }
  }
}
