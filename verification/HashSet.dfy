/** A set of pointers in a table with linear probing, and the bitset that says which slots are used. */
module HashSets {
  import opened Wrappers

  // ---- bits of natural numbers

  function And(a: nat, b: nat): nat
    decreases a + b
  {
    if a == 0 || b == 0 then 0 else 2 * And(a / 2, b / 2) + (if a % 2 == 1 && b % 2 == 1 then 1 else 0)
  }

  function Or(a: nat, b: nat): nat
    decreases a + b
  {
    if a == 0 && b == 0 then 0 else 2 * Or(a / 2, b / 2) + (if a % 2 == 1 || b % 2 == 1 then 1 else 0)
  }

  /** 1 shifted to the left `k` times. */
  function Shifted(k: nat): (p: nat)
    ensures p > 0
  {
    if k == 0 then 1 else 2 * Shifted(k - 1)
  }

  type Word = w: nat | w < 0x1_0000_0000

  predicate Bit(w: nat, k: nat) {
    And(w, Shifted(k)) != 0
  }

  lemma {:induction false} OrZero(w: nat)
    ensures Or(w, 0) == w
  {
    if w > 0 { OrZero(w / 2); }
  }

  lemma {:induction false} BitOfHalf(w: nat, k: nat)
    ensures Bit(w, 0) <==> w % 2 == 1
    ensures Bit(w, k + 1) <==> Bit(w / 2, k)
  {
    assert And(w / 2, 0) == 0;
    assert And(w, 1) == w % 2;
    assert Shifted(k + 1) / 2 == Shifted(k) && Shifted(k + 1) % 2 == 0;
  }

  lemma OrHalves(w: nat, a: nat)
    ensures Or(w, Shifted(0)) / 2 == w / 2 && Or(w, Shifted(0)) % 2 == 1
    ensures Or(w, Shifted(a + 1)) / 2 == Or(w / 2, Shifted(a)) && Or(w, Shifted(a + 1)) % 2 == w % 2
  {
    OrZero(w / 2);
    assert Shifted(a + 1) / 2 == Shifted(a) && Shifted(a + 1) % 2 == 0;
  }

  /** Setting bit `a` changes no other. */
  lemma {:induction false} SetOneBit(w: nat, a: nat, b: nat)
    ensures Bit(Or(w, Shifted(a)), b) <==> a == b || Bit(w, b)
  {
    var v := Or(w, Shifted(a));
    if a == 0 || b == 0 {
      OrHalves(w, if a == 0 then 0 else a - 1);
      if b > 0 { BitOfHalf(v, b - 1); BitOfHalf(w, b - 1); } else { BitOfHalf(v, 0); BitOfHalf(w, 0); }
    } else {
      OrHalves(w, a - 1);
      BitOfHalf(v, b - 1);
      BitOfHalf(w, b - 1);
      SetOneBit(w / 2, a - 1, b - 1);
    }
  }

  lemma HalfFits(v: nat, half: nat)
    requires v / 2 < half
    ensures v < 2 * half
  {
  }

  lemma {:induction false} OrFits(w: nat, a: nat, n: nat)
    requires w < Shifted(n) && a < n
    ensures Or(w, Shifted(a)) < Shifted(n)
  {
    var half := Shifted(n - 1);
    assert Shifted(n) == 2 * half;
    if a == 0 {
      OrHalves(w, 0);
      HalfFits(Or(w, Shifted(0)), half);
    } else {
      OrHalves(w, a - 1);
      OrFits(w / 2, a - 1, n - 1);
      HalfFits(Or(w, Shifted(a)), half);
    }
  }

  lemma {:induction false} NoBits(k: nat)
    ensures !Bit(0, k)
  {
  }

  lemma WordRange()
    ensures Shifted(32) == 0x1_0000_0000
  {
    assert Shifted(8) == 256;
    assert Shifted(16) == 65536;
    assert Shifted(24) == 16777216;
  }

  // ---- the bitset

  function WordsFor(n: nat): nat {
    (n + 31) / 32
  }

  predicate GetBit(words: seq<Word>, i: nat)
    requires i / 32 < |words|
  {
    Bit(words[i / 32], i % 32)
  }

  method SetBit(words: array<Word>, i: nat)
    requires i / 32 < words.Length
    modifies words
    ensures forall k: nat :: k / 32 < words.Length ==> (GetBit(words[..], k) <==> k == i || old(GetBit(words[..], k)))
  {
    ghost var before := words[..];
    WordRange();
    OrFits(words[i / 32], i % 32, 32);
    words[i / 32] := Or(words[i / 32], Shifted(i % 32));
    forall k: nat | k / 32 < words.Length ensures GetBit(words[..], k) <==> k == i || GetBit(before, k) {
      SetOneBit(before[i / 32], i % 32, k % 32);
    }
  }

  // ---- the table

  /** Which slots are used, and the keys; a key counts only in a used slot. */
  datatype Table = Table(used: seq<bool>, keys: seq<nat>)

  /** The slot where the search for a pointer starts; the last four bits of a pointer are always zero. */
  function Home(key: nat, n: nat): (h: nat)
    requires n > 0
    ensures h < n
  {
    key / 16 % n
  }

  /** `k` slots on from `h`, around the end. */
  function Along(h: nat, k: nat, n: nat): (i: nat)
    requires h < n && k < n
    ensures i < n
  {
    if h + k < n then h + k else h + k - n
  }

  function Distance(h: nat, i: nat, n: nat): (k: nat)
    requires h < n && i < n
    ensures k < n && Along(h, k, n) == i
  {
    if i >= h then i - h else i + n - h
  }

  lemma NextSlot(h: nat, k: nat, n: nat)
    requires h < n && k < n
    ensures (Along(h, k, n) + 1) % n == if k + 1 < n then Along(h, k + 1, n) else h
  {
  }

  ghost predicate Shaped(t: Table) {
    |t.used| == |t.keys| > 0
  }

  /** The first `k` slots from `key`'s home on are used for other keys. */
  ghost predicate Probed(t: Table, key: nat, k: nat)
    requires Shaped(t) && k <= |t.keys|
  {
    forall l :: 0 <= l < k ==> TakenByOther(t, key, Along(Home(key, |t.keys|), l, |t.keys|))
  }

  lemma OneMoreProbed(t: Table, key: nat, k: nat)
    requires Shaped(t) && k < |t.keys| && Probed(t, key, k)
    requires TakenByOther(t, key, Along(Home(key, |t.keys|), k, |t.keys|))
    ensures Probed(t, key, k + 1)
  {
  }

  ghost predicate TakenByOther(t: Table, key: nat, i: nat)
    requires Shaped(t) && i < |t.keys|
  {
    t.used[i] && t.keys[i] != key
  }

  /** Slot `i` can be reached from its key's home through slots used for other keys. */
  ghost predicate Reachable(t: Table, i: nat)
    requires Shaped(t) && i < |t.keys|
  {
    Probed(t, t.keys[i], Distance(Home(t.keys[i], |t.keys|), i, |t.keys|))
  }

  ghost predicate Proper(t: Table) {
    Shaped(t) && forall i :: 0 <= i < |t.keys| && t.used[i] ==> Reachable(t, i)
  }

  ghost function Elements(t: Table): set<nat>
    requires Shaped(t)
  {
    set i | 0 <= i < |t.keys| && t.used[i] :: t.keys[i]
  }

  /** A key is in one slot only. */
  lemma KeysAreDistinct(t: Table, i: nat, j: nat)
    requires Proper(t) && i < |t.keys| && j < |t.keys| && t.used[i] && t.used[j] && t.keys[i] == t.keys[j]
    ensures i == j
  {
    var n, key := |t.keys|, t.keys[i];
    var k, l := Distance(Home(key, n), i, n), Distance(Home(key, n), j, n);
    assert Reachable(t, i) && Reachable(t, j);
  }

  /** Behind a free slot there is nothing to find. */
  lemma FreeSlotEndsSearch(t: Table, key: nat, k: nat)
    requires Proper(t) && k < |t.keys| && Probed(t, key, k) && !t.used[Along(Home(key, |t.keys|), k, |t.keys|)]
    ensures key !in Elements(t)
  {
    var n := |t.keys|;
    forall i | 0 <= i < n && t.used[i] ensures t.keys[i] != key {
      var d := Distance(Home(key, n), i, n);
      assert Reachable(t, i);
      assert d < k ==> TakenByOther(t, key, i);
    }
  }

  /** After a whole round there is nothing to find, and no room. */
  lemma RoundIsComplete(t: Table, key: nat)
    requires Shaped(t) && Probed(t, key, |t.keys|)
    ensures key !in Elements(t) && forall i :: 0 <= i < |t.keys| ==> t.used[i]
  {
    var n := |t.keys|;
    forall i | 0 <= i < n ensures t.used[i] && t.keys[i] != key {
      var d := Distance(Home(key, n), i, n);
      assert TakenByOther(t, key, Along(Home(key, n), d, n));
    }
  }

  /** Nothing that is there moves. */
  ghost predicate Extends(t: Table, t': Table) {
    && Shaped(t) && |t'.used| == |t.used| && |t'.keys| == |t.keys|
    && forall i :: 0 <= i < |t.keys| && t.used[i] ==> t'.used[i] && t'.keys[i] == t.keys[i]
  }

  function Put(t: Table, i: nat, key: nat): Table
    requires i < |t.keys| == |t.used|
  {
    Table(t.used[i := true], t.keys[i := key])
  }

  lemma PutKeepsProper(t: Table, key: nat, k: nat)
    requires Proper(t) && k < |t.keys| && Probed(t, key, k) && !t.used[Along(Home(key, |t.keys|), k, |t.keys|)]
    ensures var t' := Put(t, Along(Home(key, |t.keys|), k, |t.keys|), key);
            Proper(t') && Extends(t, t') && Elements(t') == Elements(t) + {key}
  {
    var n := |t.keys|;
    var s := Along(Home(key, n), k, n);
    var t' := Put(t, s, key);
    FreeSlotEndsSearch(t, key, k);
    forall i | 0 <= i < n && t'.used[i] ensures Reachable(t', i) {
      if i == s {
        ProbedStays(t, t', key, k);
        assert Distance(Home(key, n), s, n) == k;
      } else {
        assert Reachable(t, i);
        ProbedStays(t, t', t.keys[i], Distance(Home(t.keys[i], n), i, n));
      }
    }
    ElementsWith(t, s, key);
  }

  lemma ProbedStays(t: Table, t': Table, key: nat, k: nat)
    requires Extends(t, t') && k <= |t.keys| && Probed(t, key, k)
    ensures Probed(t', key, k)
  {
    var n := |t.keys|;
    forall l | 0 <= l < k ensures TakenByOther(t', key, Along(Home(key, n), l, n)) {
      assert TakenByOther(t, key, Along(Home(key, n), l, n));
    }
  }

  lemma ElementsWith(t: Table, i: nat, key: nat)
    requires Shaped(t) && i < |t.keys| && !t.used[i]
    ensures Elements(Put(t, i, key)) == Elements(t) + {key}
  {
    var t' := Put(t, i, key);
    assert t'.used[i] && t'.keys[i] == key;
    forall x | x in Elements(t) ensures x in Elements(t') {
      var j :| 0 <= j < |t.keys| && t.used[j] && t.keys[j] == x;
      assert t'.used[j] && t'.keys[j] == x;
    }
  }

  /** Where a search stops: at the key, or at the free slot where it belongs; None if there is neither. */
  ghost predicate FoundAt(t: Table, key: nat, r: Option<nat>)
    requires Shaped(t)
  {
    match r
    case Some(i) => i < |t.keys| && (if key in Elements(t) then t.used[i] && t.keys[i] == key else !t.used[i])
    case None => key !in Elements(t) && forall i :: 0 <= i < |t.keys| ==> t.used[i]
  }

  datatype Inserted = Slot(i: nat) | AlreadyExists | Full

  class HashSet {
    const size: nat
    const words: array<Word>
    const keys: array<nat>

    ghost predicate Valid()
      reads words, keys
    {
      size > 0 && words.Length == WordsFor(size) && keys.Length == size && words as object != keys as object
          && Proper(View())
    }

    ghost function View(): (t: Table)
      requires size > 0 && words.Length == WordsFor(size) && keys.Length == size
      reads words, keys
      ensures Shaped(t) && |t.keys| == size
    {
      Table(seq(size, i requires 0 <= i < size reads words => GetBit(words[..], i)), keys[..])
    }

    constructor (size: nat)
      requires size > 0
      ensures Valid() && this.size == size && fresh(words) && fresh(keys) && Elements(View()) == {}
    {
      this.size := size;
      words := new Word[WordsFor(size)](_ => 0);
      keys := new nat[size](_ => 0);
      new;
      NothingUsed();
    }

    lemma NothingUsed()
      requires size > 0 && words.Length == WordsFor(size) && keys.Length == size
      requires forall k :: 0 <= k < words.Length ==> words[k] == 0
      ensures Proper(View()) && Elements(View()) == {}
    {
      forall i | 0 <= i < size ensures !View().used[i] { NoBits(i % 32); }
    }

    /** Forgets all keys. */
    method Reset()
      requires Valid()
      modifies words
      ensures Valid() && Elements(View()) == {}
    {
      forall k | 0 <= k < words.Length { words[k] := 0; }
      NothingUsed();
    }

    method Find(key: nat) returns (r: Option<nat>)
      requires Valid()
      ensures FoundAt(View(), key, r)
    {
      var h := key / 16 % size;
      var i := h;
      ghost var k := 0;
      while GetBit(words[..], i) && keys[i] != key
        invariant k < size && i == Along(h, k, size) && Probed(View(), key, k)
        decreases size - k
      {
        OneMoreProbed(View(), key, k);
        NextSlot(h, k, size);
        i := (i + 1) % size;
        k := k + 1;
        if i == h {
          RoundIsComplete(View(), key);
          return None;
        }
      }
      if GetBit(words[..], i) {
        assert View().used[i] && View().keys[i] == key;
        OnlyThere(View(), key, i);
      } else {
        FreeSlotEndsSearch(View(), key, k);
      }
      r := Some(i);
    }

    method Contains(key: nat) returns (r: bool)
      requires Valid()
      ensures r <==> key in Elements(View())
    {
      var i := Find(key);
      r := i.Some? && GetBit(words[..], i.value);
    }

    /** Adds a key; Full stands for the abort. */
    method Insert(key: nat) returns (r: Inserted)
      requires Valid()
      modifies words, keys
      ensures Valid() && Extends(old(View()), View())
      ensures r == AlreadyExists <==> key in old(Elements(View()))
      ensures r == Full <==> key !in old(Elements(View())) && forall i :: 0 <= i < size ==> old(View().used[i])
      ensures Elements(View()) == old(Elements(View())) + (if r == Full then {} else {key})
      ensures r.Slot? ==> r.i < size && View().used[r.i] && View().keys[r.i] == key
    {
      var i := Probe(key);
      if i.None? { return Full; }
      if GetBit(words[..], i.value) { return AlreadyExists; }
      Take(key, i.value);
      r := Slot(i.value);
    }

    /** The slot of a key, which is added if need be; None stands for the abort. */
    method FindOrInsert(key: nat) returns (r: Option<nat>)
      requires Valid()
      modifies words, keys
      ensures Valid() && Extends(old(View()), View())
      ensures r.None? <==> key !in old(Elements(View())) && forall i :: 0 <= i < size ==> old(View().used[i])
      ensures Elements(View()) == old(Elements(View())) + (if r.None? then {} else {key})
      ensures r.Some? ==> r.value < size && View().used[r.value] && View().keys[r.value] == key
    {
      r := Probe(key);
      if r.Some? && !GetBit(words[..], r.value) { Take(key, r.value); }
    }

    /** The loop of the inserting operations. */
    method Probe(key: nat) returns (r: Option<nat>)
      requires Valid()
      ensures FoundAt(View(), key, r)
      ensures r.Some? ==> Probed(View(), key, Distance(Home(key, size), r.value, size))
    {
      ghost var t := View();
      var h := key / 16 % size;
      var i := h;
      ghost var k := 0;
      while true
        invariant k < size && i == Along(h, k, size) && Probed(t, key, k)
        decreases size - k
      {
        if !GetBit(words[..], i) {
          FreeSlotEndsSearch(t, key, k);
          return Some(i);
        }
        if keys[i] == key {
          assert t.used[i] && t.keys[i] == key;
          OnlyThere(t, key, i);
          return Some(i);
        }
        OneMoreProbed(t, key, k);
        NextSlot(h, k, size);
        i := (i + 1) % size;
        k := k + 1;
        if i == h { break; }
      }
      RoundIsComplete(t, key);
      r := None;
    }

    method Take(key: nat, i: nat)
      requires Valid() && i < size && !View().used[i] && Probed(View(), key, Distance(Home(key, size), i, size))
      modifies words, keys
      ensures Valid() && View() == Put(old(View()), i, key) && Extends(old(View()), View())
      ensures Elements(View()) == old(Elements(View())) + {key}
    {
      PutKeepsProper(View(), key, Distance(Home(key, size), i, size));
      SetBit(words, i);
      keys[i] := key;
      assert View() == Put(old(View()), i, key);
    }
  }

  lemma OnlyThere(t: Table, key: nat, i: nat)
    requires Shaped(t) && i < |t.keys| && t.used[i] && t.keys[i] == key
    ensures key in Elements(t)
  {
  }
}
