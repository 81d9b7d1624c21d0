/**
 * Fixed-capacity containers over a pool of N item slots (lib/src/dataTable.h).
 *
 * A pool owns N slots; a slot is free exactly when its id is CREATE_NEW.
 * A SlotList (DataList and DataArray) keeps an ordered sequence of slot
 * indices, a SlotTable (DataTable) a map from item id to slot index.
 * An item address (T*) into the pool is modelled as the index of its slot.
 */
module SlotPool {
  import opened Wrappers

  /** Item::CREATE_NEW: the id of a free slot. */
  const CREATE_NEW: nat := 4294967295

  /** No slot index occurs twice. */
  predicate Distinct(s: seq<nat>) {
    forall i, j :: 0 <= i < j < |s| ==> s[i] != s[j]
  }

  /**
   * The invariant of DataList and DataArray, stated over the pool's ids and the
   * referenced slots: referenced slots are in range and distinct, and a slot is
   * in use exactly when it is referenced.
   */
  ghost predicate ListInv(refs: seq<nat>, ids: seq<nat>) {
    && Distinct(refs)
    && (forall k :: 0 <= k < |refs| ==> refs[k] < |ids|)
    && (forall i :: 0 <= i < |ids| ==> (ids[i] != CREATE_NEW <==> i in refs))
  }

  /**
   * The invariant of DataTable: every entry maps its key to a slot in range
   * whose id is that key, and every slot in use is the slot of the entry keyed
   * by its id. So the map is injective and its slots are exactly the used ones.
   */
  ghost predicate TableInv(items: map<nat, nat>, ids: seq<nat>) {
    && (forall k :: k in items ==> k != CREATE_NEW && items[k] < |ids| && ids[items[k]] == k)
    && (forall i :: 0 <= i < |ids| && ids[i] != CREATE_NEW ==> ids[i] in items && items[ids[i]] == i)
  }

  /** The payloads of the referenced slots, in order. */
  function Gather<T>(vals: seq<T>, refs: seq<nat>): (s: seq<T>)
    requires forall k :: 0 <= k < |refs| ==> refs[k] < |vals|
    ensures |s| == |refs|
    ensures forall k :: 0 <= k < |refs| ==> s[k] == vals[refs[k]]
  {
    seq(|refs|, k requires 0 <= k < |refs| => vals[refs[k]])
  }

  /** Index of the first occurrence of x in s, or |s| when x does not occur. */
  function IndexOf(s: seq<nat>, x: nat): (k: nat)
    ensures k <= |s|
    ensures k < |s| <==> x in s
    ensures k < |s| ==> s[k] == x
    ensures forall j :: 0 <= j < k ==> s[j] != x
  {
    if s == [] then 0
    else if s[0] == x then 0
    else 1 + IndexOf(s[1..], x)
  }

  function Elems(s: seq<nat>): set<nat> {
    set x | x in s
  }

  /** The slot indices 0 .. n-1. */
  function Range(n: nat): (r: set<nat>)
    ensures forall i: nat :: i in r <==> i < n
  {
    if n == 0 then {} else Range(n - 1) + {n - 1}
  }

  lemma {:induction false} RangeCard(n: nat)
    ensures |Range(n)| == n
  {
    if n > 0 {
      RangeCard(n - 1);
      assert n - 1 !in Range(n - 1);
    }
  }

  lemma SubsetCard<X>(a: set<X>, b: set<X>)
    requires a <= b
    ensures |a| <= |b|
  {
    assert b == a + (b - a);
  }

  lemma {:induction false} DistinctCard(s: seq<nat>)
    requires Distinct(s)
    ensures |Elems(s)| == |s|
  {
    if s != [] {
      DistinctCard(s[1..]);
      assert Elems(s) == {s[0]} + Elems(s[1..]);
    }
  }

  /** A distinct sequence of slot indices below n has at most n elements. */
  lemma DistinctBound(s: seq<nat>, n: nat)
    requires Distinct(s)
    requires forall k :: 0 <= k < |s| ==> s[k] < n
    ensures |s| <= n
  {
    DistinctCard(s);
    SubsetCard(Elems(s), Range(n));
    RangeCard(n);
  }

  /** The size bound that the list invariant implies: size() <= N. */
  lemma ListSizeBound(refs: seq<nat>, ids: seq<nat>)
    requires ListInv(refs, ids)
    ensures |refs| <= |ids|
    ensures |refs| == |ids| <==> forall i :: 0 <= i < |ids| ==> ids[i] != CREATE_NEW
  {
    DistinctBound(refs, |ids|);
    if |refs| == |ids| {
      var used := Elems(refs);
      DistinctCard(refs);
      assert used <= Range(|ids|);
      RangeCard(|ids|);
      assert |Range(|ids|) - used| == 0 by {
        assert Range(|ids|) == used + (Range(|ids|) - used);
      }
      forall i | 0 <= i < |ids| ensures ids[i] != CREATE_NEW {
        assert i in Range(|ids|);
        assert i in used;
      }
    } else {
      var free :| free in Range(|ids|) && free !in Elems(refs) by {
        DistinctCard(refs);
        RangeCard(|ids|);
        var used := Elems(refs);
        if Range(|ids|) <= used {
          SubsetCard(Range(|ids|), used);
          assert false;
        }
      }
      assert free < |ids|;
      assert free !in refs by {
        assert forall x :: x in refs ==> x in Elems(refs);
      }
      assert ids[free] == CREATE_NEW;
    }
  }

  /** The set of slots used by a table: the image of its keys. */
  lemma {:induction false} ImageCard(items: map<nat, nat>, keys: set<nat>)
    requires keys <= items.Keys
    requires forall a, b :: a in keys && b in keys && a != b ==> items[a] != items[b]
    ensures |set k | k in keys :: items[k]| == |keys|
  {
    if keys != {} {
      var k :| k in keys;
      ImageCard(items, keys - {k});
      assert (set j | j in keys :: items[j]) == (set j | j in keys - {k} :: items[j]) + {items[k]};
    }
  }

  /** The size bound that the table invariant implies: size() <= N. */
  lemma TableSizeBound(items: map<nat, nat>, ids: seq<nat>)
    requires TableInv(items, ids)
    ensures |items| <= |ids|
  {
    ImageCard(items, items.Keys);
    SubsetCard(set k | k in items.Keys :: items[k], Range(|ids|));
    RangeCard(|ids|);
    assert |items| == |items.Keys|;
  }

  /**
   * BaseData<N,T>::items: N slots, each an id (CREATE_NEW when free) and a
   * payload, both fixed-size arrays.
   */
  class Pool<T(0)> {
    const N: nat
    const ids: array<nat>
    const vals: array<T>

    ghost predicate Valid() {
      ids.Length == N && vals.Length == N && ids as object != vals
    }

    constructor (n: nat)
      ensures Valid() && N == n && fresh(ids) && fresh(vals)
      ensures forall i :: 0 <= i < n ==> ids[i] == CREATE_NEW
    {
      N := n;
      ids := new nat[n](_ => CREATE_NEW);
      vals := new T[n];
    }

    /** BaseData::getEmpty: the lowest free slot, or None when every slot is in use. */
    method GetEmpty() returns (p: Option<nat>)
      requires Valid()
      ensures p.None? <==> forall i :: 0 <= i < N ==> ids[i] != CREATE_NEW
      ensures p.Some? ==> p.value < N && ids[p.value] == CREATE_NEW
      ensures p.Some? ==> forall i :: 0 <= i < p.value ==> ids[i] != CREATE_NEW
    {
      var i := 0;
      while i < N
        invariant 0 <= i <= N
        invariant forall j :: 0 <= j < i ==> ids[j] != CREATE_NEW
      {
        if ids[i] == CREATE_NEW {
          return Some(i);
        }
        i := i + 1;
      }
      return None;
    }

    /** BaseData::clear: every slot becomes free; payloads stay. */
    method FreeAll()
      requires Valid()
      modifies ids
      ensures forall i :: 0 <= i < N ==> ids[i] == CREATE_NEW
    {
      var i := 0;
      while i < N
        invariant 0 <= i <= N
        invariant forall j :: 0 <= j < i ==> ids[j] == CREATE_NEW
      {
        ids[i] := CREATE_NEW;
        i := i + 1;
      }
    }
  }

  /**
   * DataList<N,T> and DataArray<N,T>: an ordered sequence of item slots in the
   * pool (std::list or std::vector). Both behave alike for push, has, remove,
   * clear, pop, first and last; Shift belongs to DataList and At to DataArray.
   */
  class SlotList<T(0)> {
    const pool: Pool<T>
    var refs: seq<nat>
    /** The objects this container's state lives in. */
    ghost function Repr(): set<object> {
      {this, pool.ids, pool.vals}
    }

    ghost predicate Valid()
      reads Repr()
    {
      && pool.Valid()
      && ListInv(refs, pool.ids[..])
      && |refs| <= pool.N
    }

    function MaxSize(): nat {
      pool.N
    }

    function Size(): nat
      reads this
    {
      |refs|
    }

    /** The items in list order. */
    function Contents(): (s: seq<T>)
      reads Repr()
      requires Valid()
      ensures |s| == |refs|
    {
      Gather(pool.vals[..], refs)
    }

    constructor (n: nat)
      ensures Valid() && fresh(Repr()) && MaxSize() == n && refs == []
      ensures forall i :: 0 <= i < n ==> pool.ids[i] == CREATE_NEW
    {
      pool := new Pool(n);
      refs := [];
    }

    /** getEmpty through the list: a free slot exists exactly when size() < N. */
    method GetEmpty() returns (p: Option<nat>)
      requires Valid()
      ensures p.None? <==> Size() == MaxSize()
      ensures p.Some? ==> p.value < MaxSize() && pool.ids[p.value] == CREATE_NEW && p.value !in refs
    {
      p := pool.GetEmpty();
      ListSizeBound(refs, pool.ids[..]);
    }

    /**
     * Writes the payload of slot p, as the source does through the item address
     * that getEmpty or an iteration handed out (item->set(...)).
     */
    method Store(p: nat, v: T)
      requires Valid() && p < MaxSize()
      modifies pool.vals
      ensures Valid() && pool.vals[p] == v
      ensures forall k :: 0 <= k < |refs| ==>
        Contents()[k] == if refs[k] == p then v else old(Contents())[k]
    {
      pool.vals[p] := v;
    }

    /** push: appends a free slot, marking it used with id 1; push(nullptr) changes nothing. */
    method Push(p: Option<nat>) returns (r: Option<nat>)
      requires Valid()
      requires p.Some? ==> p.value < MaxSize() && pool.ids[p.value] == CREATE_NEW
      modifies this, pool.ids
      ensures Valid() && r == p
      ensures refs == old(refs) + (if p.Some? then [p.value] else [])
      ensures Contents() == old(Contents()) + (if p.Some? then [pool.vals[p.value]] else [])
      ensures p.Some? ==> pool.ids[p.value] == 1
      ensures forall i :: 0 <= i < MaxSize() && (p.None? || i != p.value) ==> pool.ids[i] == old(pool.ids[i])
    {
      if p.Some? {
        pool.ids[p.value] := 1;
        refs := refs + [p.value];
        DistinctBound(refs, pool.N);
        return p;
      }
      return None;
    }

    /** has: whether the item is in the list (std::find). */
    method Has(p: nat) returns (b: bool)
      requires Valid()
      ensures b <==> p in refs
    {
      var i := 0;
      while i < |refs|
        invariant 0 <= i <= |refs|
        invariant forall j :: 0 <= j < i ==> refs[j] != p
      {
        if refs[i] == p {
          return true;
        }
        i := i + 1;
      }
      return false;
    }

    /**
     * remove: when the item is in the list, erases it, frees its slot and
     * keeps the order of the others; otherwise changes nothing.
     */
    method Remove(p: nat) returns (ok: bool)
      requires Valid()
      modifies this, pool.ids
      ensures Valid()
      ensures ok <==> p in old(refs)
      ensures p !in refs
      ensures var k := IndexOf(old(refs), p);
        ok ==> (refs == old(refs)[..k] + old(refs)[k + 1..]
                && Contents() == old(Contents())[..k] + old(Contents())[k + 1..])
      ensures ok ==> pool.ids[p] == CREATE_NEW
      ensures !ok ==> refs == old(refs)
      ensures forall i :: 0 <= i < MaxSize() && i != p ==> pool.ids[i] == old(pool.ids[i])
    {
      var k := 0;
      while k < |refs|
        invariant 0 <= k <= |refs|
        invariant forall j :: 0 <= j < k ==> refs[j] != p
      {
        if refs[k] == p {
          break;
        }
        k := k + 1;
      }
      if k == |refs| {
        return false;
      }
      RemoveAtKeepsInv(refs, pool.ids[..], pool.vals[..], k);
      refs := refs[..k] + refs[k + 1..];
      pool.ids[p] := CREATE_NEW;
      return true;
    }

    /** clear: frees all N slots and empties the list. */
    method Clear()
      requires Valid()
      modifies this, pool.ids
      ensures Valid() && refs == [] && Size() == 0
      ensures forall i :: 0 <= i < MaxSize() ==> pool.ids[i] == CREATE_NEW
    {
      pool.FreeAll();
      refs := [];
    }

    /** shift (DataList only): drops the first item and frees its slot; false on an empty list. */
    method Shift() returns (ok: bool)
      requires Valid()
      modifies this, pool.ids
      ensures Valid()
      ensures ok <==> old(refs) != []
      ensures ok ==> refs == old(refs)[1..] && Contents() == old(Contents())[1..]
      ensures ok ==> pool.ids[old(refs)[0]] == CREATE_NEW
      ensures !ok ==> refs == old(refs)
      ensures forall i :: 0 <= i < MaxSize() && (!ok || i != old(refs)[0]) ==> pool.ids[i] == old(pool.ids[i])
    {
      if |refs| <= 0 {
        return false;
      }
      pool.ids[refs[0]] := CREATE_NEW;
      refs := refs[1..];
      return true;
    }

    /** pop: drops the last item and frees its slot; false on an empty list. */
    method Pop() returns (ok: bool)
      requires Valid()
      modifies this, pool.ids
      ensures Valid()
      ensures ok <==> old(refs) != []
      ensures ok ==> refs == old(refs)[..|old(refs)| - 1] && Contents() == old(Contents())[..|old(refs)| - 1]
      ensures ok ==> pool.ids[old(refs)[|old(refs)| - 1]] == CREATE_NEW
      ensures !ok ==> refs == old(refs)
      ensures forall i :: 0 <= i < MaxSize() && (!ok || i != old(refs)[|old(refs)| - 1]) ==> pool.ids[i] == old(pool.ids[i])
    {
      if |refs| <= 0 {
        return false;
      }
      pool.ids[refs[|refs| - 1]] := CREATE_NEW;
      refs := refs[..|refs| - 1];
      return true;
    }

    /** first: the front item's slot (undefined on an empty list, hence the precondition). */
    method First() returns (p: nat)
      requires Valid() && refs != []
      ensures p in refs && p < MaxSize() && pool.ids[p] != CREATE_NEW
      ensures p == refs[0] && Contents()[0] == pool.vals[p]
    {
      p := refs[0];
    }

    /** last: the back item's slot (undefined on an empty list, hence the precondition). */
    method Last() returns (p: nat)
      requires Valid() && refs != []
      ensures p in refs && p < MaxSize() && pool.ids[p] != CREATE_NEW
      ensures p == refs[|refs| - 1] && Contents()[|refs| - 1] == pool.vals[p]
    {
      p := refs[|refs| - 1];
    }

    /** operator[] (DataArray only): the slot of the item at index, or None when index >= size(). */
    method At(index: nat) returns (p: Option<nat>)
      requires Valid()
      ensures p.None? <==> index >= Size()
      ensures p.Some? ==> p.value == refs[index] && p.value < MaxSize() && Contents()[index] == pool.vals[p.value]
    {
      if Size() <= index {
        return None;
      }
      return Some(refs[index]);
    }

    /**
     * BaseData::create, with the JSON object already parsed into `obj` (None
     * when deserializeItem rejects it): takes the lowest free slot and writes
     * the item into it; None when there is no free slot or nothing to write.
     */
    method Create(obj: Option<T>) returns (p: Option<nat>)
      requires Valid()
      modifies pool.vals
      ensures Valid() && refs == old(refs) && Contents() == old(Contents())
      ensures p.Some? <==> obj.Some? && Size() < MaxSize()
      ensures p.Some? ==> p.value < MaxSize() && pool.ids[p.value] == CREATE_NEW
                          && pool.vals[p.value] == obj.value
    {
      p := GetEmpty();
      if p.Some? && obj.Some? {
        Store(p.value, obj.value);
        assert forall k :: 0 <= k < |refs| ==> refs[k] != p.value;
      } else {
        p := None;
      }
    }

    /** One step of deserializeData: push(create(obj)), reporting whether it pushed. */
    method PushCreated(obj: Option<T>) returns (pushed: bool)
      requires Valid()
      modifies this, pool.ids, pool.vals
      ensures Valid()
      ensures pushed <==> obj.Some? && old(Size()) < MaxSize()
      ensures Size() == old(Size()) + (if pushed then 1 else 0)
      ensures Contents() == old(Contents()) + (if pushed then [obj.value] else [])
    {
      var item := Create(obj);
      var r := Push(item);
      pushed := r.Some?;
    }

    /**
     * BaseData::deserializeData, with the JSON text already parsed: None is a
     * parse error, and each element is the item its deserializeItem produced
     * (None when it rejected the object). Elements are pushed in order until the
     * first one that cannot be created; those pushed before it stay.
     */
    method DeserializeData(doc: Option<seq<Option<T>>>) returns (result: bool)
      requires Valid()
      modifies this, pool.ids, pool.vals
      ensures Valid()
      ensures doc.None? ==> !result && refs == old(refs)
      ensures doc.Some? ==>
        var n := Admitted(doc.value, MaxSize() - old(Size()));
        && result == (n == |doc.value| && n > 0)
        && Contents() == old(Contents()) + Payloads(doc.value[..n])
    {
      if doc.None? {
        return false;
      }
      var elems := doc.value;
      ghost var start := Contents();
      ghost var room := MaxSize() - Size();
      ghost var n := Admitted(elems, room);
      AdmittedIsLeadingRun(elems, room);
      result := false;
      var j := 0;
      while j < |elems|
        invariant 0 <= j <= n
        invariant Valid()
        invariant Size() + room == MaxSize() + j
        invariant Contents() == start + Payloads(elems[..j])
        invariant result == (j > 0)
      {
        var pushed := PushCreated(elems[j]);
        if pushed {
          PayloadsSnoc(elems, j);
          result := true;
          j := j + 1;
        } else {
          return false;
        }
      }
    }
  }

  /** Erasing the k-th reference and freeing its slot keeps the list invariant and the order of the rest. */
  lemma RemoveAtKeepsInv<T>(refs: seq<nat>, ids: seq<nat>, vals: seq<T>, k: nat)
    requires ListInv(refs, ids) && |vals| == |ids| && k < |refs|
    ensures var refs' := refs[..k] + refs[k + 1..];
      && ListInv(refs', ids[refs[k] := CREATE_NEW])
      && refs[k] !in refs'
      && Gather(vals, refs') == Gather(vals, refs)[..k] + Gather(vals, refs)[k + 1..]
  {
    var refs' := refs[..k] + refs[k + 1..];
    var ids' := ids[refs[k] := CREATE_NEW];
    assert forall j :: 0 <= j < |refs'| ==> refs'[j] == if j < k then refs[j] else refs[j + 1];
    forall i | 0 <= i < |ids'| ensures ids'[i] != CREATE_NEW <==> i in refs' {
      if i in refs {
        var j := IndexOf(refs, i);
        if j < k { assert refs'[j] == i; }
        else if j > k { assert refs'[j - 1] == i; }
      }
    }
  }

  /** Payloads distributes over concatenation. */
  lemma {:induction false} PayloadsAppend<T>(a: seq<Option<T>>, b: seq<Option<T>>)
    ensures Payloads(a + b) == Payloads(a) + Payloads(b)
  {
    if a == [] {
      assert a + b == b;
    } else {
      assert (a + b)[0] == a[0];
      assert (a + b)[1..] == a[1..] + b;
      PayloadsAppend(a[1..], b);
    }
  }

  lemma PayloadsSnoc<T>(elems: seq<Option<T>>, j: nat)
    requires j < |elems| && elems[j].Some?
    ensures Payloads(elems[..j + 1]) == Payloads(elems[..j]) + [elems[j].value]
  {
    assert elems[..j + 1] == elems[..j] + [elems[j]];
    PayloadsAppend(elems[..j], [elems[j]]);
  }

  /** How many leading elements deserializeData pushes when `room` slots are free. */
  function Admitted<T>(elems: seq<Option<T>>, room: nat): (n: nat)
    ensures n <= |elems| && n <= room
  {
    if elems == [] || elems[0].None? || room == 0 then 0
    else 1 + Admitted(elems[1..], room - 1)
  }

  /** The items carried by a sequence of created elements. */
  function Payloads<T>(elems: seq<Option<T>>): (s: seq<T>)
    ensures |s| <= |elems|
  {
    if elems == [] then []
    else (if elems[0].Some? then [elems[0].value] else []) + Payloads(elems[1..])
  }

  /** The pushed prefix is exactly the leading run of created elements that fits. */
  lemma {:induction false} AdmittedIsLeadingRun<T>(elems: seq<Option<T>>, room: nat)
    ensures var n := Admitted(elems, room);
      && (forall j :: 0 <= j < n ==> elems[j].Some?)
      && (n < |elems| ==> elems[n].None? || n == room)
      && |Payloads(elems[..n])| == n
  {
    var n := Admitted(elems, room);
    if elems == [] || elems[0].None? || room == 0 {
      assert elems[..0] == [];
    } else {
      AdmittedIsLeadingRun(elems[1..], room - 1);
      assert elems[..n][1..] == elems[1..][..n - 1];
    }
  }

  /**
   * DataTable<N,T>: a map from item id to the slot of the item in the pool.
   */
  class SlotTable<T(0)> {
    const pool: Pool<T>
    var items: map<nat, nat>
    /** The objects this container's state lives in. */
    ghost function Repr(): set<object> {
      {this, pool.ids, pool.vals}
    }

    ghost predicate Valid()
      reads Repr()
    {
      && pool.Valid()
      && TableInv(items, pool.ids[..])
    }

    function MaxSize(): nat {
      pool.N
    }

    constructor (n: nat)
      ensures Valid() && fresh(Repr()) && MaxSize() == n && items == map[]
    {
      pool := new Pool(n);
      items := map[];
    }

    /** size(): at most N by the table invariant. */
    method Size() returns (n: nat)
      requires Valid()
      ensures n == |items| && n <= MaxSize()
    {
      TableSizeBound(items, pool.ids[..]);
      n := |items|;
    }

    /** MapBaseData::has. */
    method Has(key: nat) returns (b: bool)
      requires Valid()
      ensures b <==> key in items
    {
      b := key in items;
    }

    /** MapBaseData::remove: erases the entry and frees its slot; false when the key is absent. */
    method Remove(key: nat) returns (ok: bool)
      requires Valid()
      modifies this, pool.ids
      ensures Valid()
      ensures ok <==> key in old(items)
      ensures items == old(items) - {key}
      ensures ok ==> pool.ids[old(items)[key]] == CREATE_NEW
      ensures forall i :: 0 <= i < MaxSize() && (!ok || i != old(items)[key]) ==> pool.ids[i] == old(pool.ids[i])
    {
      if key in items {
        var slot := items[key];
        items := items - {key};
        pool.ids[slot] := CREATE_NEW;
        return true;
      }
      return false;
    }

    /** MapBaseData::clear: frees all N slots and empties the map. */
    method Clear()
      requires Valid()
      modifies this, pool.ids
      ensures Valid() && items == map[]
      ensures forall i :: 0 <= i < MaxSize() ==> pool.ids[i] == CREATE_NEW
    {
      pool.FreeAll();
      items := map[];
    }

    /**
     * getUniqueId: an explicit id (below CREATE_NEW) is kept; otherwise the
     * smallest key in [0, N) not in the map, or CREATE_NEW when there is none.
     */
    method GetUniqueId(id: nat) returns (r: nat)
      requires Valid()
      ensures id < CREATE_NEW ==> r == id
      ensures id >= CREATE_NEW ==> r == FirstUnusedKey(items, MaxSize())
    {
      if id < CREATE_NEW {
        return id;
      }
      var i := 0;
      while i < MaxSize()
        invariant 0 <= i <= MaxSize()
        invariant forall j :: 0 <= j < i ==> j in items
        invariant FirstUnusedKey(items, MaxSize()) == FirstUnusedKeyFrom(items, MaxSize(), i)
      {
        if i !in items {
          return i;
        }
        i := i + 1;
      }
      return CREATE_NEW;
    }

    /**
     * push, as corrected (see TablePush): stores a free slot under its id, or
     * under a fresh id when it carries CREATE_NEW. `id` is the id the caller
     * left in the item. Fails with None when no id is available or when the id
     * is already taken, and then changes nothing.
     */
    method Push(p: Option<nat>, id: nat) returns (r: Option<nat>)
      requires Valid() && id <= CREATE_NEW
      requires p.Some? ==> p.value < MaxSize() && pool.ids[p.value] == CREATE_NEW
      modifies this, pool.ids
      ensures Valid()
      ensures p.Some? ==>
        var (items', ids', ok) := TablePush(old(items), old(pool.ids[..]), p.value,
                                            if id < CREATE_NEW then id else FirstUnusedKey(old(items), MaxSize()));
        items == items' && pool.ids[..] == ids' && r == (if ok then p else None)
      ensures p.None? ==> r.None? && items == old(items) && pool.ids[..] == old(pool.ids[..])
    {
      if p.Some? {
        var key := GetUniqueId(id);
        if key < CREATE_NEW && key !in items {
          pool.ids[p.value] := key;
          items := items[key := p.value];
          return p;
        }
      }
      return None;
    }
  }

  /** The smallest key in [from, n) not in the map, or CREATE_NEW. */
  function FirstUnusedKeyFrom(items: map<nat, nat>, n: nat, from: nat): (r: nat)
    decreases n - from
  {
    if from >= n then CREATE_NEW
    else if from !in items then from
    else FirstUnusedKeyFrom(items, n, from + 1)
  }

  function FirstUnusedKey(items: map<nat, nat>, n: nat): nat {
    FirstUnusedKeyFrom(items, n, 0)
  }

  /** A generated key is free and below N, and every smaller key is taken. */
  lemma {:induction false} FirstUnusedKeyFromSpec(items: map<nat, nat>, n: nat, from: nat)
    ensures var r := FirstUnusedKeyFrom(items, n, from);
      (r == CREATE_NEW && forall j :: from <= j < n ==> j in items)
      || (from <= r < n && r !in items && forall j :: from <= j < r ==> j in items)
    decreases n - from
  {
    if from < n && from in items {
      FirstUnusedKeyFromSpec(items, n, from + 1);
    }
  }

  /**
   * DataTable::push on values, as corrected: stores the slot under `key`
   * (getUniqueId's answer) when the key is valid and not yet taken.
   */
  function TablePush(items: map<nat, nat>, ids: seq<nat>, slot: nat, key: nat): (map<nat, nat>, seq<nat>, bool)
    requires slot < |ids|
  {
    if key < CREATE_NEW && key !in items then (items[key := slot], ids[slot := key], true)
    else (items, ids, false)
  }

  /** The corrected push keeps the table invariant and stores the item exactly when it reports success. */
  lemma TablePushKeepsInv(items: map<nat, nat>, ids: seq<nat>, slot: nat, key: nat)
    requires TableInv(items, ids)
    requires slot < |ids| && ids[slot] == CREATE_NEW
    ensures var (items', ids', ok) := TablePush(items, ids, slot, key);
      && TableInv(items', ids')
      && (ok <==> key < CREATE_NEW && key !in items)
      && (ok ==> items' == items[key := slot] && |items'| == |items| + 1)
      && (!ok ==> items' == items && ids' == ids)
  {
    var (items', ids', ok) := TablePush(items, ids, slot, key);
    if ok {
      assert forall k :: k in items ==> items[k] != slot;
      forall k | k in items' ensures k != CREATE_NEW && items'[k] < |ids'| && ids'[items'[k]] == k {
        if k != key {
          assert items[k] != slot;
        }
      }
    }
  }

  /**
   * DataTable::push as written: the item takes getUniqueId's key even when that
   * key is already in the map, where std::map::insert then keeps the old entry;
   * the item is still returned as pushed.
   */
  function TablePushAsWritten(items: map<nat, nat>, ids: seq<nat>, slot: nat, key: nat): (map<nat, nat>, seq<nat>, bool)
    requires slot < |ids|
  {
    if key < CREATE_NEW then (if key in items then items else items[key := slot], ids[slot := key], true)
    else (items, ids, false)
  }

  /**
   * Pushing an item whose id is already a key: success is reported, yet the
   * slot is marked in use and referenced by no entry, so it is lost to the pool.
   */
  lemma TablePushAsWrittenLeaksSlot()
    ensures var ids := [0, CREATE_NEW];
      var (items', ids', ok) := TablePushAsWritten(map[0 := 0], ids, 1, 0);
      && TableInv(map[0 := 0], ids)
      && ok
      && ids'[1] != CREATE_NEW && 1 !in items'.Values
      && !TableInv(items', ids')
  {
    var (items', ids', ok) := TablePushAsWritten(map[0 := 0], [0, CREATE_NEW], 1, 0);
    assert items' == map[0 := 0];
    assert ids' == [0, 0];
    assert items'.Values == {0};
  }
}
