/** The normal form of caller-supplied attributes and dimensions: whatever order a mapping yields
    its items in, the same byte-sorted pairs go into the event and come out of the ordered map
    behind it. */
module CustomNormal {
  import opened Events
  import opened Codec
  import opened CodecProofs
  import D = Decimals

  type Pair = (string, Value)

  // ----- Byte order is a strict total order -----

  lemma {:induction false} BeforeIrreflexive(a: string)
    ensures !Before(a, a)
  {
    if a != [] { BeforeIrreflexive(a[1..]); }
  }

  lemma {:induction false} BeforeTransitive(a: string, b: string, c: string)
    requires Before(a, b) && Before(b, c)
    ensures Before(a, c)
  {
    if a != [] && a[0] == b[0] && b[0] == c[0] { BeforeTransitive(a[1..], b[1..], c[1..]); }
  }

  lemma {:induction false} BeforeTotal(a: string, b: string)
    ensures Before(a, b) || Before(b, a) || a == b
  {
    if a != [] && b != [] && a[0] == b[0] {
      BeforeTotal(a[1..], b[1..]);
      assert a == [a[0]] + a[1..] && b == [b[0]] + b[1..];
    }
  }

  // ----- Sorting pairs by key -----

  predicate Sorted(pairs: seq<Pair>) {
    forall i, j :: 0 <= i < j < |pairs| ==> Before(pairs[i].0, pairs[j].0)
  }

  predicate UniqueKeys(pairs: seq<Pair>) {
    forall i, j :: 0 <= i < j < |pairs| ==> pairs[i].0 != pairs[j].0
  }

  /** Inserting into an ordered map: an equal key is replaced. */
  function Insert(pairs: seq<Pair>, p: Pair): seq<Pair> {
    if pairs == [] then [p]
    else if Before(p.0, pairs[0].0) then [p] + pairs
    else if p.0 == pairs[0].0 then [p] + pairs[1..]
    else [pairs[0]] + Insert(pairs[1..], p)
  }

  function InsertAll(pairs: seq<Pair>): seq<Pair> {
    if pairs == [] then [] else Insert(InsertAll(pairs[..|pairs| - 1]), pairs[|pairs| - 1])
  }

  lemma ConsSorted(p: Pair, pairs: seq<Pair>)
    requires Sorted(pairs) && forall x :: x in pairs ==> Before(p.0, x.0)
    ensures Sorted([p] + pairs)
  {
  }

  lemma {:induction false} InsertContents(pairs: seq<Pair>, p: Pair)
    requires forall i :: 0 <= i < |pairs| ==> pairs[i].0 != p.0
    ensures multiset(Insert(pairs, p)) == multiset(pairs) + multiset{p}
  {
    if pairs != [] {
      assert pairs == [pairs[0]] + pairs[1..];
      if !Before(p.0, pairs[0].0) { InsertContents(pairs[1..], p); }
    }
  }

  lemma {:induction false} InsertSorted(pairs: seq<Pair>, p: Pair)
    requires Sorted(pairs) && forall i :: 0 <= i < |pairs| ==> pairs[i].0 != p.0
    ensures Sorted(Insert(pairs, p))
  {
    if pairs != [] {
      BeforeTotal(p.0, pairs[0].0);
      hide Before;
      if Before(p.0, pairs[0].0) {
        forall x | x in pairs ensures Before(p.0, x.0) {
          if x != pairs[0] { BeforeTransitive(p.0, pairs[0].0, x.0); }
        }
        ConsSorted(p, pairs);
      } else {
        var rest := Insert(pairs[1..], p);
        InsertSorted(pairs[1..], p);
        InsertContents(pairs[1..], p);
        forall x | x in rest ensures Before(pairs[0].0, x.0) {
          assert x in multiset(rest);
          assert x in pairs[1..] || x == p;
        }
        ConsSorted(pairs[0], rest);
      }
    }
  }

  /** A key absent from a sequence is absent from every rearrangement of it. */
  lemma AbsentKey(pairs: seq<Pair>, other: seq<Pair>, key: string)
    requires multiset(pairs) == multiset(other) && forall i :: 0 <= i < |other| ==> other[i].0 != key
    ensures forall i :: 0 <= i < |pairs| ==> pairs[i].0 != key
  {
    forall i | 0 <= i < |pairs| ensures pairs[i].0 != key {
      assert pairs[i] in multiset(other);
    }
  }

  lemma {:induction false} InsertAllSorted(pairs: seq<Pair>)
    requires UniqueKeys(pairs)
    ensures Sorted(InsertAll(pairs)) && multiset(InsertAll(pairs)) == multiset(pairs)
  {
    if pairs != [] {
      var init, last := pairs[..|pairs| - 1], pairs[|pairs| - 1];
      assert UniqueKeys(init);
      InsertAllSorted(init);
      AbsentKey(InsertAll(init), init, last.0);
      hide Sorted, UniqueKeys, Insert;
      InsertSorted(InsertAll(init), last);
      InsertContents(InsertAll(init), last);
      assert pairs == init + [last];
    }
  }

  lemma SortedHead(a: seq<Pair>, p: Pair)
    requires Sorted(a) && p in a
    ensures a[0] == p || Before(a[0].0, p.0)
  {
  }

  /** There is only one sorted arrangement. */
  lemma {:induction false} SortedUnique(a: seq<Pair>, b: seq<Pair>)
    requires Sorted(a) && Sorted(b) && multiset(a) == multiset(b)
    ensures a == b
  {
    assert |a| == |multiset(a)| == |multiset(b)| == |b|;
    if a != [] {
      assert a[0] in multiset(b) && b[0] in multiset(a);
      SortedHead(a, b[0]);
      SortedHead(b, a[0]);
      if Before(a[0].0, b[0].0) && Before(b[0].0, a[0].0) {
        BeforeTransitive(a[0].0, b[0].0, a[0].0);
        BeforeIrreflexive(a[0].0);
      }
      assert a[0] == b[0];
      DropHead(a);
      DropHead(b);
      SortedUnique(a[1..], b[1..]);
    }
  }

  lemma DropHead(a: seq<Pair>)
    requires a != []
    ensures multiset(a[1..]) == multiset(a) - multiset{a[0]} && a == [a[0]] + a[1..]
  {
    assert a == [a[0]] + a[1..];
  }

  lemma SortedAscending(pairs: seq<Pair>)
    requires Sorted(pairs)
    ensures Ascending(KeysOf(pairs)) && UniqueKeys(pairs)
  {
    forall i, j | 0 <= i < j < |pairs| ensures pairs[i].0 != pairs[j].0 {
      BeforeIrreflexive(pairs[i].0);
    }
  }

  // ----- Normalising values -----

  /** Exact decimals become canonical ones; everything else stays or is refused. */
  function NormalScalar(v: Value): Option<Value> {
    match v
    case VDec(d) => if D.Normalized(d).Some? then Some(VDec(D.Normalized(d).value)) else None
    case VNone => Some(v)
    case VBool(_) => Some(v)
    case VInt(_) => Some(v)
    case VStr(_) => Some(v)
    case _ => None
  }

  function NormalAttribute(v: Value): Option<Value> {
    if !v.VList? then NormalScalar(v)
    else if |v.items| > MAX_CUSTOM_LIST_ITEMS || exists i :: 0 <= i < |v.items| && NormalScalar(v.items[i]).None? then None
    else Some(VList(seq(|v.items|, i requires 0 <= i < |v.items| && NormalScalar(v.items[i]).Some? => NormalScalar(v.items[i]).value)))
  }

  function NormalEntry(dimensions: bool, v: Value): Option<Value> {
    if !dimensions then NormalAttribute(v) else if v.VNone? then None else NormalScalar(v)
  }

  lemma NormalScalarFixed(v: Value)
    requires NormalScalar(v).Some?
    ensures IsScalar(NormalScalar(v).value) && NormalScalar(NormalScalar(v).value) == NormalScalar(v)
    ensures v.VNone? <==> NormalScalar(v).value.VNone?
  {
    hide D.Normalized;
    if v.VDec? { D.NormalizedIsFixed(v.decimal); }
  }

  lemma ScalarIsNormal(v: Value)
    requires IsScalar(v)
    ensures NormalScalar(v) == Some(v)
  {
    hide D.Normalized;
  }

  /** A normalised entry value is one the event accepts. */
  lemma NormalEntryOk(dimensions: bool, v: Value)
    requires NormalEntry(dimensions, v).Some?
    ensures IsEntry(dimensions, NormalEntry(dimensions, v).value)
  {
    if !dimensions && v.VList? {
      forall i | 0 <= i < |v.items| ensures IsScalar(NormalScalar(v.items[i]).value) { NormalScalarFixed(v.items[i]); }
      hide NormalScalar, IsScalar;
    } else {
      NormalScalarFixed(v);
      hide NormalScalar, IsScalar;
    }
  }

  /** The event's own normaliser leaves an accepted value alone. */
  lemma EntryIsNormal(dimensions: bool, v: Value)
    requires IsEntry(dimensions, v)
    ensures NormalEntry(dimensions, v) == Some(v)
  {
    if !dimensions && v.VList? {
      forall i | 0 <= i < |v.items| ensures NormalScalar(v.items[i]) == Some(v.items[i]) { ScalarIsNormal(v.items[i]); }
      hide NormalScalar, IsScalar;
      assert NormalAttribute(v).value.items == v.items;
    } else {
      ScalarIsNormal(v);
      NoScalarList(v);
      hide NormalScalar, IsScalar;
    }
  }

  lemma NoScalarList(v: Value)
    requires IsScalar(v)
    ensures !v.VList?
  {
  }

  // ----- Normalising a mapping -----

  function Most(dimensions: bool): nat {
    if dimensions then MAX_CUSTOM_DIMENSIONS else MAX_CUSTOM_ATTRIBUTES
  }

  predicate ItemOk(dimensions: bool, item: Pair) {
    KeyOk(item.0) && NormalEntry(dimensions, item.1).Some?
  }

  predicate Acceptable(items: seq<Pair>, dimensions: bool) {
    |items| <= Most(dimensions) && UniqueKeys(items) && forall i :: 0 <= i < |items| ==> ItemOk(dimensions, items[i])
  }

  function NormalItem(dimensions: bool, item: Pair): Pair {
    (item.0, if NormalEntry(dimensions, item.1).Some? then NormalEntry(dimensions, item.1).value else VNone)
  }

  function NormalItems(items: seq<Pair>, dimensions: bool): (pairs: seq<Pair>)
    ensures |pairs| == |items| && forall i :: 0 <= i < |pairs| ==> pairs[i] == NormalItem(dimensions, items[i])
  {
    seq(|items|, i requires 0 <= i < |items| => NormalItem(dimensions, items[i]))
  }

  function NormalEntries(items: seq<Pair>, dimensions: bool): Option<seq<Pair>> {
    if Acceptable(items, dimensions) then Some(InsertAll(NormalItems(items, dimensions))) else None
  }

  /** The normaliser as a loop over the mapping's items, with the keys seen so far. */
  method NormalizeCustomEntries(items: seq<Pair>, dimensions: bool) returns (r: Option<seq<Pair>>)
    ensures r == NormalEntries(items, dimensions)
  {
    hide NormalEntry, KeyOk;
    if |items| > Most(dimensions) {
      return None;
    }
    var entries: seq<Pair> := [];
    var seen: set<string> := {};
    for n := 0 to |items|
      invariant forall i :: 0 <= i < n ==> ItemOk(dimensions, items[i])
      invariant UniqueKeys(items[..n])
      invariant forall i :: 0 <= i < n ==> items[i].0 in seen
      invariant forall key :: key in seen ==> exists i :: 0 <= i < n && items[i].0 == key
      invariant entries == NormalItems(items[..n], dimensions)
    {
      var (key, value) := items[n];
      if !KeyOk(key) {
        return None;
      }
      if key in seen {
        var i :| 0 <= i < n && items[i].0 == key;
        return None;
      }
      var normalized := NormalEntry(dimensions, value);
      if normalized.None? {
        return None;
      }
      seen := seen + {key};
      entries := entries + [(key, normalized.value)];
      assert items[..n + 1] == items[..n] + [items[n]];
    }
    assert items[..|items|] == items;
    r := Some(InsertAll(entries));
  }

  // ----- The mapping's order does not matter -----

  lemma {:induction false} TwoPlaces(s: seq<Pair>, x: Pair)
    requires multiset(s)[x] >= 2
    ensures exists i, j :: 0 <= i < j < |s| && s[i] == x && s[j] == x
  {
    var init, last := s[..|s| - 1], s[|s| - 1];
    assert s == init + [last];
    if last == x {
      assert x in multiset(init);
      var i :| 0 <= i < |init| && init[i] == x;
      assert s[i] == x && s[|s| - 1] == x;
    } else {
      TwoPlaces(init, x);
      var i, j :| 0 <= i < j < |init| && init[i] == x && init[j] == x;
      assert s[i] == x && s[j] == x;
    }
  }

  lemma CountTwice(s: seq<Pair>, i: nat, j: nat)
    requires i < j < |s| && s[i] == s[j]
    ensures multiset(s)[s[i]] >= 2
  {
    assert s == s[..j] + [s[j]] + s[j + 1..];
    assert s[..j][i] == s[i];
    assert s[i] in multiset(s[..j]);
  }

  lemma UniqueRearranged(a: seq<Pair>, b: seq<Pair>)
    requires UniqueKeys(a) && multiset(a) == multiset(b)
    ensures UniqueKeys(b)
  {
    forall i, j | 0 <= i < j < |b| ensures b[i].0 != b[j].0 {
      if b[i] == b[j] {
        CountTwice(b, i, j);
        TwoPlaces(a, b[i]);
        assert false;
      } else {
        assert b[i] in multiset(a) && b[j] in multiset(a);
        var m :| 0 <= m < |a| && a[m] == b[i];
        var n :| 0 <= n < |a| && a[n] == b[j];
        assert a[m].0 != a[n].0;
      }
    }
  }

  function Dropped(s: seq<Pair>, k: nat): seq<Pair>
    requires k < |s|
  {
    s[..k] + s[k + 1..]
  }

  lemma DropOne(s: seq<Pair>, k: nat)
    requires k < |s|
    ensures multiset(s) == multiset(Dropped(s, k)) + multiset{s[k]}
    ensures multiset(Dropped(s, k)) == multiset(s) - multiset{s[k]}
  {
    assert s == s[..k] + [s[k]] + s[k + 1..];
  }

  lemma NormalDropOne(s: seq<Pair>, k: nat, dimensions: bool)
    requires k < |s|
    ensures multiset(NormalItems(s, dimensions)) ==
            multiset(NormalItems(Dropped(s, k), dimensions)) + multiset{NormalItem(dimensions, s[k])}
  {
    hide NormalItem;
    assert Dropped(NormalItems(s, dimensions), k) == NormalItems(Dropped(s, k), dimensions);
    DropOne(NormalItems(s, dimensions), k);
  }

  lemma {:induction false} NormalItemsRearranged(a: seq<Pair>, b: seq<Pair>, dimensions: bool)
    requires multiset(a) == multiset(b)
    ensures multiset(NormalItems(a, dimensions)) == multiset(NormalItems(b, dimensions))
    decreases |a|
  {
    hide NormalItem, NormalItems;
    assert |a| == |multiset(a)| == |multiset(b)| == |b|;
    if a == [] {
      assert b == [];
    } else {
      assert a[0] in multiset(b);
      var k :| 0 <= k < |b| && b[k] == a[0];
      DropOne(a, 0);
      DropOne(b, k);
      NormalDropOne(a, 0, dimensions);
      NormalDropOne(b, k, dimensions);
      assert |Dropped(a, 0)| < |a|;
      hide Dropped;
      NormalItemsRearranged(Dropped(a, 0), Dropped(b, k), dimensions);
    }
  }

  lemma AcceptableRearranged(a: seq<Pair>, b: seq<Pair>, dimensions: bool)
    requires multiset(a) == multiset(b) && Acceptable(a, dimensions)
    ensures Acceptable(b, dimensions)
  {
    assert |a| == |multiset(a)| == |multiset(b)| == |b|;
    UniqueRearranged(a, b);
    forall i | 0 <= i < |b| ensures ItemOk(dimensions, b[i]) {
      assert b[i] in multiset(a);
    }
  }

  lemma NormalItemsUnique(items: seq<Pair>, dimensions: bool)
    requires UniqueKeys(items)
    ensures UniqueKeys(NormalItems(items, dimensions))
  {
  }

  /** Two mappings with the same items in any order have the same normal form, or none. */
  lemma OrderIrrelevant(a: seq<Pair>, b: seq<Pair>, dimensions: bool)
    requires multiset(a) == multiset(b)
    ensures NormalEntries(a, dimensions) == NormalEntries(b, dimensions)
  {
    if Acceptable(a, dimensions) {
      AcceptableRearranged(a, b, dimensions);
      NormalItemsRearranged(a, b, dimensions);
      NormalItemsUnique(a, dimensions);
      NormalItemsUnique(b, dimensions);
      InsertAllSorted(NormalItems(a, dimensions));
      InsertAllSorted(NormalItems(b, dimensions));
      SortedUnique(InsertAll(NormalItems(a, dimensions)), InsertAll(NormalItems(b, dimensions)));
    } else if Acceptable(b, dimensions) {
      AcceptableRearranged(b, a, dimensions);
    }
  }

  // ----- A fixed point, and the ordered map behind it -----

  lemma NormalItemsAccepted(items: seq<Pair>, dimensions: bool)
    requires forall i :: 0 <= i < |items| ==> ItemOk(dimensions, items[i])
    ensures forall p :: p in NormalItems(items, dimensions) ==> KeyOk(p.0) && IsEntry(dimensions, p.1)
  {
    var normal := NormalItems(items, dimensions);
    forall p | p in normal ensures KeyOk(p.0) && IsEntry(dimensions, p.1) {
      var k :| 0 <= k < |normal| && normal[k] == p;
      assert ItemOk(dimensions, items[k]);
      NormalEntryOk(dimensions, items[k].1);
      hide IsEntry, NormalEntry;
    }
  }

  /** The normal form is what the event's fields accept: unique byte-sorted keys within bounds. */
  lemma NormalFormAccepted(items: seq<Pair>, dimensions: bool)
    requires NormalEntries(items, dimensions).Some?
    ensures HasType(EntriesTy(dimensions), VEntries(NormalEntries(items, dimensions).value))
  {
    var normal, r := NormalItems(items, dimensions), NormalEntries(items, dimensions).value;
    NormalItemsUnique(items, dimensions);
    NormalItemsAccepted(items, dimensions);
    InsertAllSorted(normal);
    SortedAscending(r);
    hide IsEntry, KeyOk, Ascending, InsertAll, ItemOk, NormalItem, Sorted, UniqueKeys;
    assert |r| == |multiset(r)| == |multiset(normal)| == |normal|;
    forall i | 0 <= i < |r| ensures KeyOk(r[i].0) && IsEntry(dimensions, r[i].1) {
      assert r[i] in multiset(normal);
    }
  }

  /** The normaliser of the event constructors: the order must already be canonical. */
  function NormalPairs(pairs: seq<Pair>, dimensions: bool): Option<seq<Pair>> {
    if |pairs| <= Most(dimensions) && Ascending(KeysOf(pairs)) && forall i :: 0 <= i < |pairs| ==> ItemOk(dimensions, pairs[i])
    then Some(NormalItems(pairs, dimensions)) else None
  }

  /** Accepted entries, and so every normal form, are fixed points of the constructors' normaliser. */
  lemma AcceptedIsFixed(pairs: seq<Pair>, dimensions: bool)
    requires HasType(EntriesTy(dimensions), VEntries(pairs))
    ensures NormalPairs(pairs, dimensions) == Some(pairs)
  {
    forall i | 0 <= i < |pairs| ensures NormalEntry(dimensions, pairs[i].1) == Some(pairs[i].1) {
      EntryIsNormal(dimensions, pairs[i].1);
    }
    hide NormalEntry, IsEntry;
    assert NormalItems(pairs, dimensions) == pairs;
  }

  lemma AscendingSorted(pairs: seq<Pair>, i: nat, j: nat)
    requires Ascending(KeysOf(pairs)) && i < j < |pairs|
    ensures Before(pairs[i].0, pairs[j].0)
  {
    var keys := KeysOf(pairs);
    assert Before(keys[j - 1], keys[j]);
    if i < j - 1 {
      AscendingSorted(pairs, i, j - 1);
      BeforeTransitive(pairs[i].0, pairs[j - 1].0, pairs[j].0);
    }
  }

  /** The Rust side takes the pairs in dictionary order and collects them into an ordered map. */
  function Collected(entries: seq<(Key, Json)>, dimensions: bool): seq<Pair>
    requires EntriesOk(entries, dimensions)
  {
    InsertAll(DecodePairs(entries, dimensions))
  }

  /** Collected into the ordered map, the encoded pairs are enumerated as they were. */
  lemma OrderedMapEnumerates(pairs: seq<Pair>, dimensions: bool)
    requires HasType(EntriesTy(dimensions), VEntries(pairs))
    ensures var entries := Encode(EntriesTy(dimensions), VEntries(pairs)).entries;
            EntriesOk(entries, dimensions) && Collected(entries, dimensions) == pairs
  {
    EntriesRoundTrip(dimensions, VEntries(pairs));
    assert Sorted(pairs) by {
      forall i, j | 0 <= i < j < |pairs| ensures Before(pairs[i].0, pairs[j].0) { AscendingSorted(pairs, i, j); }
    }
    SortedAscending(pairs);
    InsertAllSorted(pairs);
    SortedUnique(InsertAll(pairs), pairs);
    hide InsertAll, Sorted, HasType, EncodeEntry, DecodeEntry;
  }

  /** The constructors' normaliser as a loop that collects keys and values and then checks the order. */
  method NormalizeOrderedPairs(pairs: seq<Pair>, dimensions: bool) returns (r: Option<seq<Pair>>)
    ensures r == NormalPairs(pairs, dimensions)
  {
    hide NormalEntry, KeyOk, Before;
    if |pairs| > Most(dimensions) {
      return None;
    }
    var normalized: seq<Pair> := [];
    var keys: seq<string> := [];
    for n := 0 to |pairs|
      invariant forall i :: 0 <= i < n ==> ItemOk(dimensions, pairs[i])
      invariant keys == KeysOf(pairs[..n]) && normalized == NormalItems(pairs[..n], dimensions)
    {
      var (key, value) := pairs[n];
      if !KeyOk(key) {
        return None;
      }
      keys := keys + [key];
      var entry := NormalEntry(dimensions, value);
      if entry.None? {
        return None;
      }
      normalized := normalized + [(key, entry.value)];
      assert pairs[..n + 1] == pairs[..n] + [pairs[n]];
    }
    assert pairs[..|pairs|] == pairs;
    if !Ascending(keys) {
      return None;
    }
    r := Some(normalized);
  }
}
