// The symbol allocator of the Fiber generator (pkg/gen/set.go): the import
// paths and handler receivers met while walking the tree are collected in
// a map, sorted, and given short identifiers in sorted order.

module SymbolSet {
  import opened Text
  import opened Sorting
  import Repr

  // ---------------------------------------------------------------------
  // Identifiers

  /** `n` copies of 'z'. */
  function Zs(n: nat): (s: string)
    ensures |s| == n
  {
    seq(n, _ => 'z')
  }

  /**
   * The identifier of index `x`: the letter `'a' + x % 26` followed by
   * `x / 26` copies of 'z' (0 is "a", 25 is "z", 26 is "az").
   */
  function Letters(x: nat): (s: string)
    ensures |s| == 1 + x / 26
    ensures 'a' <= s[0] <= 'z'
  {
    [('a' as int + x % 26) as char] + Zs(x / 26)
  }

  /** intToIdent: the 'z's appended in a loop, the letter put in front. */
  method IntToIdent(x: nat) returns (ident: string)
    ensures ident == Letters(x)
  {
    var r := x % 26;
    var m := x / 26;
    ident := "";
    var i := 0;
    while i < m
      invariant 0 <= i <= m
      invariant ident == Zs(i)
    {
      ident := ident + "z";
      i := i + 1;
    }
    ident := [('a' as int + r) as char] + ident;
  }

  /** Distinct indices get distinct identifiers. */
  lemma LettersInjective(x: nat, y: nat)
    requires Letters(x) == Letters(y)
    ensures x == y
  {
    assert x / 26 == y / 26;
    assert Letters(x)[0] == Letters(y)[0];
    assert x % 26 == y % 26;
  }

  /** The identifiers of the test table. */
  lemma LettersTable()
    ensures Letters(0) == "a" && Letters(1) == "b" && Letters(25) == "z"
    ensures Letters(26) == "az" && Letters(27) == "bz"
    ensures Letters(51) == "zz" && Letters(52) == "azz"
  {
    assert Zs(0) == [];
    assert Zs(1) == ['z'];
    assert Zs(2) == ['z', 'z'];
  }

  /** importIdent */
  function ImportIdent(x: nat): (s: string)
    ensures |s| == 2 + x / 26 && 'a' <= s[0] <= 'z' && s[|s| - 1] == 'i'
  {
    Letters(x) + "i"
  }

  /** recieverIdent */
  function ReceiverIdent(x: nat): (s: string)
    ensures |s| == 2 + x / 26 && 'a' <= s[0] <= 'z' && s[|s| - 1] == 'r'
  {
    Letters(x) + "r"
  }

  /** A suffix does not make two identifiers collide. */
  lemma SuffixedInjective(x: nat, y: nat, suffix: string)
    requires Letters(x) + suffix == Letters(y) + suffix
    ensures x == y
  {
    assert Letters(x) == (Letters(x) + suffix)[..|Letters(x) + suffix| - |suffix|];
    assert Letters(y) == (Letters(y) + suffix)[..|Letters(y) + suffix| - |suffix|];
    LettersInjective(x, y);
  }

  /** An import identifier is never a receiver identifier. */
  lemma ImportAndReceiverIdentsDiffer(x: nat, y: nat)
    ensures ImportIdent(x) != ReceiverIdent(y)
  {
    assert ImportIdent(x)[|ImportIdent(x)| - 1] == 'i';
    assert ReceiverIdent(y)[|ReceiverIdent(y)| - 1] == 'r';
  }

  // ---------------------------------------------------------------------
  // Keys and their order

  /** The order of import paths: Go's byte-wise string comparison. */
  lemma StrLessIsStrictTotalOrder()
    ensures IsStrictTotalOrder(StrLess)
  {
    forall a ensures !StrLess(a, a) {
      StrLessIrreflexive(a);
    }
    forall a, b, c | StrLess(a, b) && StrLess(b, c) ensures StrLess(a, c) {
      StrLessTransitive(a, b, c);
    }
    forall a, b | a != b ensures StrLess(a, b) || StrLess(b, a) {
      StrLessTotal(a, b);
    }
  }

  /** recieverKey: a receiver type is identified by package, name and pointer-ness. */
  datatype ReceiverKey = ReceiverKey(importPath: string, name: string, pointer: bool)

  function KeyOf(recv: Repr.Receiver, importPath: string): ReceiverKey {
    ReceiverKey(importPath, recv.name, recv.pointer)
  }

  /** The comparison given to slices.SortFunc: path, then name, then value before pointer. */
  predicate KeyLess(a: ReceiverKey, b: ReceiverKey)
    ensures KeyLess(a, b) ==> a != b
  {
    StrLessIrreflexive(a.importPath);
    StrLessIrreflexive(a.name);
    StrLess(a.importPath, b.importPath) ||
    (a.importPath == b.importPath &&
     (StrLess(a.name, b.name) || (a.name == b.name && !a.pointer && b.pointer)))
  }

  lemma KeyLessIsStrictTotalOrder()
    ensures IsStrictTotalOrder(KeyLess)
  {
    StrLessIsStrictTotalOrder();
    forall a, b | a != b ensures KeyLess(a, b) || KeyLess(b, a) {
      if a.importPath == b.importPath && a.name == b.name {
        assert a.pointer != b.pointer;
      }
    }
  }

  // ---------------------------------------------------------------------
  // Allocations

  /** One sorted entry: a key and the identifier it was given. */
  datatype Slot<K> = Slot(key: K, ident: string)

  function SlotKeys<K>(slots: seq<Slot<K>>): (keys: seq<K>)
    ensures |keys| == |slots|
  {
    seq(|slots|, i requires 0 <= i < |slots| => slots[i].key)
  }

  /**
   * What sort returns: every key of the set exactly once, strictly
   * increasing, the entry at index `i` named `Letters(i) + suffix`.
   */
  ghost predicate IsAllocation<K(!new)>(keys: set<K>, slots: seq<Slot<K>>, less: (K, K) -> bool, suffix: string) {
    StrictlySorted(SlotKeys(slots), less) &&
    (forall k :: k in keys <==> k in SlotKeys(slots)) &&
    forall i :: 0 <= i < |slots| ==> slots[i].ident == Letters(i) + suffix
  }

  /**
   * The allocation depends on the set of keys only: whatever order the keys
   * were added in, sort returns the same entries.
   */
  lemma AllocationUnique<K(!new)>(keys: set<K>, a: seq<Slot<K>>, b: seq<Slot<K>>, less: (K, K) -> bool, suffix: string)
    requires IsStrictTotalOrder(less)
    requires IsAllocation(keys, a, less, suffix) && IsAllocation(keys, b, less, suffix)
    ensures a == b
  {
    SortedUnique(SlotKeys(a), SlotKeys(b), less);
    assert |a| == |b|;
    forall i | 0 <= i < |a| ensures a[i] == b[i] {
      assert SlotKeys(a)[i] == SlotKeys(b)[i];
    }
  }

  /** Within one allocation, distinct entries have distinct identifiers. */
  lemma AllocationIdentsDistinct<K(!new)>(keys: set<K>, slots: seq<Slot<K>>, less: (K, K) -> bool, suffix: string, i: nat, j: nat)
    requires IsAllocation(keys, slots, less, suffix)
    requires i < j < |slots|
    ensures slots[i].ident != slots[j].ident
  {
    if slots[i].ident == slots[j].ident {
      SuffixedInjective(i, j, suffix);
    }
  }

  /** The keys of a map, in the unspecified order a range over it visits them. */
  method CollectKeys<K, V>(m: map<K, V>) returns (keys: seq<K>)
    ensures Distinct(keys)
    ensures forall k :: k in m <==> k in keys
  {
    keys := [];
    var rest := m.Keys;
    while rest != {}
      invariant rest !! set k | k in keys
      invariant forall k :: k in m <==> k in keys || k in rest
      invariant Distinct(keys)
      decreases |rest|
    {
      var k :| k in rest;
      keys := keys + [k];
      rest := rest - {k};
    }
  }

  /**
   * importSet and recieverSet: a map from key to identifier that add fills
   * with empty identifiers and sort fills in. The `sorted` and `unsorted`
   * phases of the source share the same map.
   */
  class SymbolSet<K(==, !new)> {
    var m: map<K, string>
    const less: (K, K) -> bool
    const suffix: string

    constructor (less: (K, K) -> bool, suffix: string)
      ensures m == map[] && this.less == less && this.suffix == suffix
    {
      m := map[];
      this.less := less;
      this.suffix := suffix;
    }

    /** add: the key is registered (again) with an empty identifier. */
    method Add(k: K)
      modifies this
      ensures m == old(m)[k := ""]
      ensures m.Keys == old(m).Keys + {k}
    {
      m := m[k := ""];
    }

    /** get: the identifier of a key, "" for a key never added. */
    method Get(k: K) returns (ident: string)
      ensures ident == if k in m then m[k] else ""
    {
      ident := if k in m then m[k] else "";
    }

    /**
     * sort: the keys collected and sorted, then each given the identifier
     * of its index, both in the map and in the returned entries.
     */
    method Sort() returns (slots: seq<Slot<K>>)
      requires IsStrictTotalOrder(less)
      modifies this
      ensures IsAllocation(old(m).Keys, slots, less, suffix)
      ensures m.Keys == old(m).Keys
      ensures forall i :: 0 <= i < |slots| ==> slots[i].key in m && m[slots[i].key] == slots[i].ident
    {
      var collected := CollectKeys(m);
      var keys := Sorting.Sort(collected, less);
      SortedKeys(collected, less);
      ghost var keySet := m.Keys;
      slots := [];
      var i := 0;
      while i < |keys|
        invariant 0 <= i <= |keys|
        invariant m.Keys == keySet
        invariant |slots| == i
        invariant forall j :: 0 <= j < i ==> slots[j] == Slot(keys[j], Letters(j) + suffix)
        invariant forall j :: 0 <= j < i ==> m[keys[j]] == Letters(j) + suffix
      {
        var ident := IntToIdent(i);
        ident := ident + suffix;
        m := m[keys[i] := ident];
        slots := slots + [Slot(keys[i], ident)];
        i := i + 1;
      }
      SortedSlots(keySet, keys, slots, less, suffix);
    }
  }

  /** Sorting the collected keys keeps exactly them, each once, in order. */
  lemma SortedKeys<K(!new)>(collected: seq<K>, less: (K, K) -> bool)
    requires IsStrictTotalOrder(less) && Distinct(collected)
    ensures StrictlySorted(Sorting.Sort(collected, less), less)
    ensures Distinct(Sorting.Sort(collected, less))
    ensures forall k :: k in Sorting.Sort(collected, less) <==> k in collected
  {
    var keys := Sorting.Sort(collected, less);
    SortSorted(collected, less);
    assert forall k :: k in keys <==> k in multiset(keys);
    assert forall k :: k in collected <==> k in multiset(collected);
  }

  /** The entries built from the sorted keys form the allocation. */
  lemma SortedSlots<K(!new)>(keySet: set<K>, keys: seq<K>, slots: seq<Slot<K>>, less: (K, K) -> bool, suffix: string)
    requires StrictlySorted(keys, less) && forall k :: k in keySet <==> k in keys
    requires |slots| == |keys|
    requires forall j :: 0 <= j < |keys| ==> slots[j] == Slot(keys[j], Letters(j) + suffix)
    ensures IsAllocation(keySet, slots, less, suffix)
  {
    assert SlotKeys(slots) == keys;
  }

  /** newImportSet: import paths in string order, identifiers ending in "i". */
  method NewImportSet() returns (s: SymbolSet<string>)
    ensures fresh(s) && s.m == map[] && s.less == StrLess && s.suffix == "i"
  {
    s := new SymbolSet(StrLess, "i");
  }

  /** newRecieverSet: receiver keys in KeyLess order, identifiers ending in "r". */
  method NewReceiverSet() returns (s: SymbolSet<ReceiverKey>)
    ensures fresh(s) && s.m == map[] && s.less == KeyLess && s.suffix == "r"
  {
    s := new SymbolSet(KeyLess, "r");
  }
}
