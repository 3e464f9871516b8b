/**
 * The student form's metadata: which dynamic fields it shows and in what order,
 * which master-data types it loads, and the per-type master-data lists.
 */
module StudentMetadata {
  import opened Wrappers
  import opened FieldTypes
  import opened Sorting
  import opened DynamicFieldService

  /** The master types every student form loads. */
  const CORE_MASTER_TYPES: seq<string> := ["RELIGION", "BLOOD_GROUP", "HOUSE", "CAST_CATEGORY", "NATIONALITY"]

  ghost predicate NoDuplicates(s: seq<string>) {
    forall i, j :: 0 <= i < j < |s| ==> s[i] != s[j]
  }

  /** The fields the form shows: the visible ones, in arrival order (before sorting). */
  function VisibleOnly(fields: seq<DynamicField>): (r: seq<DynamicField>)
    ensures forall f :: f in r <==> f in fields && f.isVisible
  {
    if fields == [] then []
    else (if fields[0].isVisible then [fields[0]] else []) + VisibleOnly(fields[1..])
  }

  /** The dynamic fields on the form: the visible ones sorted by ascending priority. */
  function VisibleFields(fields: seq<DynamicField>): seq<DynamicField> {
    SortBy(VisibleOnly(fields), Priority)
  }

  /**
   * The form shows exactly the visible definitions, each as often as it came,
   * by non-decreasing priority, and definitions of equal priority keep their order.
   */
  lemma VisibleFieldsCorrect(fields: seq<DynamicField>)
    ensures SortedBy(VisibleFields(fields), Priority)
    ensures multiset(VisibleFields(fields)) == multiset(VisibleOnly(fields))
    ensures forall f :: f in VisibleFields(fields) <==> f in fields && f.isVisible
    ensures forall k :: WithKey(VisibleFields(fields), Priority, k) == WithKey(VisibleOnly(fields), Priority, k)
  {
    SortByCorrect(VisibleOnly(fields), Priority);
    forall f
      ensures f in VisibleFields(fields) <==> f in VisibleOnly(fields)
    {
      assert f in VisibleFields(fields) <==> f in multiset(VisibleFields(fields));
      assert f in VisibleOnly(fields) <==> f in multiset(VisibleOnly(fields));
    }
  }

  /** A dropdown definition that names a master type. */
  predicate NamesMasterType(f: DynamicField) {
    f.controlType == "DROPDOWN" && Present(f.masterType)
  }

  /** The master types named by dropdown definitions, visible or not, in order. */
  function DynamicMasterTypes(fields: seq<DynamicField>): (types: seq<string>)
    ensures |types| <= |fields|
  {
    if fields == [] then []
    else (if NamesMasterType(fields[0]) then [fields[0].masterType.value] else []) + DynamicMasterTypes(fields[1..])
  }

  lemma {:induction false} DynamicMasterTypesIff(fields: seq<DynamicField>, t: string)
    ensures t in DynamicMasterTypes(fields) <==> exists f :: f in fields && NamesMasterType(f) && f.masterType.value == t
  {
    if fields != [] {
      DynamicMasterTypesIff(fields[1..], t);
      var head := if NamesMasterType(fields[0]) then [fields[0].masterType.value] else [];
      assert DynamicMasterTypes(fields) == head + DynamicMasterTypes(fields[1..]);
      if exists f :: f in fields && NamesMasterType(f) && f.masterType.value == t {
        var f :| f in fields && NamesMasterType(f) && f.masterType.value == t;
        if f != fields[0] {
          assert f in fields[1..];
        }
      }
      forall f | f in fields[1..] ensures f in fields { }
    }
  }

  /** `new Set(acc)` after adding `x`: insertion order, first occurrence kept. */
  function AddUnique(acc: seq<string>, x: string): seq<string> {
    if x in acc then acc else acc + [x]
  }

  /** `Array.from(new Set([...acc, ...s]))` for an `acc` that is already duplicate-free. */
  function UniqueFrom(acc: seq<string>, s: seq<string>): seq<string>
    decreases |s|
  {
    if s == [] then acc else UniqueFrom(AddUnique(acc, s[0]), s[1..])
  }

  lemma {:induction false} UniqueFromCorrect(acc: seq<string>, s: seq<string>)
    requires NoDuplicates(acc)
    ensures NoDuplicates(UniqueFrom(acc, s))
    ensures |acc| <= |UniqueFrom(acc, s)| && UniqueFrom(acc, s)[..|acc|] == acc
    ensures forall x :: x in UniqueFrom(acc, s) <==> x in acc || x in s
    decreases |s|
  {
    if s != [] {
      var next := AddUnique(acc, s[0]);
      assert NoDuplicates(next);
      UniqueFromCorrect(next, s[1..]);
      assert next[..|acc|] == acc;
      var r := UniqueFrom(acc, s);
      assert r[..|acc|] == r[..|next|][..|acc|];
      forall x
        ensures x in r <==> x in acc || x in s
      {
        assert x in s <==> x == s[0] || x in s[1..];
      }
    }
  }

  /** The position of the first occurrence of `x` in `s`. */
  function FirstIndex(s: seq<string>, x: string): (i: nat)
    requires x in s
    ensures i < |s| && s[i] == x && x !in s[..i]
  {
    if s[0] == x then 0
    else
      assert s[1..][..FirstIndex(s[1..], x)] == s[1..FirstIndex(s[1..], x) + 1];
      1 + FirstIndex(s[1..], x)
  }

  /** No occurrence of `x` comes before its first one. */
  lemma {:induction false} FirstIndexMin(s: seq<string>, x: string, k: nat)
    requires k < |s| && s[k] == x
    ensures FirstIndex(s, x) <= k
    decreases k
  {
    if s[0] != x {
      assert s[1..][k - 1] == x;
      FirstIndexMin(s[1..], x, k - 1);
    }
  }

  /** An element of the first `m` entries first occurs before position `m`; the next new one at `m`. */
  lemma FirstIndexBound(w: seq<string>, m: nat, x: string)
    requires x in w && m <= |w|
    ensures x in w[..m] ==> FirstIndex(w, x) < m
    ensures m < |w| && x == w[m] && x !in w[..m] ==> FirstIndex(w, x) == m
  {
    if x in w[..m] {
      var k :| 0 <= k < m && w[..m][k] == x;
      FirstIndexMin(w, x, k);
    }
    if m < |w| && x == w[m] && x !in w[..m] {
      FirstIndexMin(w, x, m);
      assert forall k | 0 <= k < m :: w[..m][k] == w[k];
    }
  }

  /** `s` lists its elements in the order in which they first occur in `w`. */
  ghost predicate InFirstOccurrenceOrder(s: seq<string>, w: seq<string>)
    requires forall x :: x in s ==> x in w
  {
    forall i, j :: 0 <= i < j < |s| ==> FirstIndex(w, s[i]) < FirstIndex(w, s[j])
  }

  /**
   * De-duplicating the rest of `w` after its first `m` entries, from their
   * de-duplication `acc`, keeps every element in first-occurrence order.
   */
  lemma {:induction false} UniqueFromOrder(w: seq<string>, m: nat, acc: seq<string>)
    requires m <= |w|
    requires forall x :: x in acc <==> x in w[..m]
    requires InFirstOccurrenceOrder(acc, w)
    ensures forall x :: x in UniqueFrom(acc, w[m..]) ==> x in w
    ensures InFirstOccurrenceOrder(UniqueFrom(acc, w[m..]), w)
    decreases |w| - m
  {
    if m == |w| {
      assert w[m..] == [];
      assert w[..m] == w;
    } else {
      var next := AddUnique(acc, w[m]);
      assert w[m..][0] == w[m] && w[m..][1..] == w[m + 1..];
      assert w[..m + 1] == w[..m] + [w[m]];
      if w[m] !in acc {
        forall i | 0 <= i < |acc|
          ensures acc[i] in w && FirstIndex(w, acc[i]) < FirstIndex(w, w[m])
        {
          assert acc[i] in w[..m];
          FirstIndexBound(w, m, acc[i]);
          FirstIndexBound(w, m, w[m]);
        }
      }
      UniqueFromOrder(w, m + 1, next);
    }
  }

  /** The master types the form loads: the core list, then dropdown-named types, each once. */
  function MasterTypes(fields: seq<DynamicField>): seq<string> {
    UniqueFrom([], CORE_MASTER_TYPES + DynamicMasterTypes(fields))
  }

  /**
   * The master-type list has no duplicates, starts with the core list as it is,
   * and holds exactly the core types and the types named by dropdown definitions.
   */
  lemma MasterTypesCorrect(fields: seq<DynamicField>)
    ensures NoDuplicates(MasterTypes(fields))
    ensures |MasterTypes(fields)| >= 5 && MasterTypes(fields)[..5] == CORE_MASTER_TYPES
    ensures forall t :: t in MasterTypes(fields) <==> t in CORE_MASTER_TYPES || t in DynamicMasterTypes(fields)
  {
    var dynamic := DynamicMasterTypes(fields);
    UniqueFromPrefix([], CORE_MASTER_TYPES, dynamic);
    CoreIsUnique();
    UniqueFromCorrect(CORE_MASTER_TYPES, dynamic);
  }

  /**
   * After the core five come only types named by dropdowns that are not core
   * types, in the order in which the dropdown definitions first name them.
   */
  lemma MasterTypesOrder(fields: seq<DynamicField>)
    ensures forall i :: 5 <= i < |MasterTypes(fields)| ==>
              MasterTypes(fields)[i] in DynamicMasterTypes(fields) && MasterTypes(fields)[i] !in CORE_MASTER_TYPES
    ensures forall i, j :: 5 <= i < j < |MasterTypes(fields)| ==>
              FirstIndex(DynamicMasterTypes(fields), MasterTypes(fields)[i])
              < FirstIndex(DynamicMasterTypes(fields), MasterTypes(fields)[j])
  {
    var dynamic := DynamicMasterTypes(fields);
    var r := MasterTypes(fields);
    MasterTypesCorrect(fields);
    forall i | 5 <= i < |r|
      ensures r[i] in dynamic && r[i] !in CORE_MASTER_TYPES
    {
      assert forall k | 0 <= k < 5 :: CORE_MASTER_TYPES[k] == r[k] != r[i];
    }
    var w := CORE_MASTER_TYPES + dynamic;
    assert w[0..] == w && w[..0] == [];
    UniqueFromOrder(w, 0, []);
    forall i, j | 5 <= i < j < |r|
      ensures FirstIndex(dynamic, r[i]) < FirstIndex(dynamic, r[j])
    {
      assert FirstIndex(w, r[i]) < FirstIndex(w, r[j]);
      FirstIndexShift(CORE_MASTER_TYPES, dynamic, r[i]);
      FirstIndexShift(CORE_MASTER_TYPES, dynamic, r[j]);
    }
  }

  /** An element missing from `a` first occurs in `a + b` right after `a`, at its place in `b`. */
  lemma {:induction false} FirstIndexShift(a: seq<string>, b: seq<string>, x: string)
    requires x !in a && x in b
    ensures FirstIndex(a + b, x) == |a| + FirstIndex(b, x)
    decreases |a|
  {
    if a == [] {
      assert a + b == b;
    } else {
      assert (a + b)[1..] == a[1..] + b;
      FirstIndexShift(a[1..], b, x);
    }
  }

  /** The core list is already duplicate-free, so the set keeps it as it is. */
  lemma CoreIsUnique()
    ensures NoDuplicates(CORE_MASTER_TYPES)
    ensures UniqueFrom([], CORE_MASTER_TYPES) == CORE_MASTER_TYPES
  {
    var c := CORE_MASTER_TYPES;
    assert c[0][0] == 'R' && c[1][0] == 'B' && c[2][0] == 'H' && c[3][0] == 'C' && c[4][0] == 'N';
    assert AddUnique([], c[0]) == c[..1];
    assert AddUnique(c[..1], c[1]) == c[..2];
    assert AddUnique(c[..2], c[2]) == c[..3];
    assert AddUnique(c[..3], c[3]) == c[..4];
    assert AddUnique(c[..4], c[4]) == c;
    assert UniqueFrom([], c) == UniqueFrom(c[..1], c[1..]);
    assert UniqueFrom(c[..1], c[1..]) == UniqueFrom(c[..2], c[2..]);
    assert UniqueFrom(c[..2], c[2..]) == UniqueFrom(c[..3], c[3..]);
    assert UniqueFrom(c[..3], c[3..]) == UniqueFrom(c[..4], c[4..]);
    assert UniqueFrom(c[..4], c[4..]) == UniqueFrom(c, []);
  }

  lemma {:induction false} UniqueFromPrefix(acc: seq<string>, s: seq<string>, t: seq<string>)
    ensures UniqueFrom(acc, s + t) == UniqueFrom(UniqueFrom(acc, s), t)
    decreases |s|
  {
    if s != [] {
      assert (s + t)[0] == s[0] && (s + t)[1..] == s[1..] + t;
      UniqueFromPrefix(AddUnique(acc, s[0]), s[1..], t);
    } else {
      assert s + t == t;
    }
  }

  /** Every dropdown definition's master type is loaded, whether or not the definition is visible. */
  lemma DropdownMasterTypeLoaded(fields: seq<DynamicField>, f: DynamicField)
    requires f in fields && NamesMasterType(f)
    ensures f.masterType.value in MasterTypes(fields)
  {
    DynamicMasterTypesIff(fields, f.masterType.value);
    MasterTypesCorrect(fields);
  }

  /** The per-type lists, each sorted by `order || 0`, or `None` if any request failed. */
  function MasterDataFor(types: seq<string>, lists: map<string, Option<seq<MasterDataItem>>>)
    : Option<map<string, seq<MasterDataItem>>>
  {
    if forall t :: t in types ==> t in lists
    then Some(map t | t in types :: SortBy(lists[t].GetOr([]), OrderKey))
    else None
  }

  /**
   * Fills the master-data map one type at a time; `lists` holds each type's
   * response (absent: the request failed, `None`: a null body read as empty).
   * One failure fails the whole load.
   */
  method FillMasterData(types: seq<string>, lists: map<string, Option<seq<MasterDataItem>>>)
    returns (result: Option<map<string, seq<MasterDataItem>>>)
    ensures result == MasterDataFor(types, lists)
  {
    var masterDataMap: map<string, seq<MasterDataItem>> := map[];
    for i := 0 to |types|
      invariant forall t :: t in types[..i] ==> t in lists
      invariant masterDataMap == map t | t in types[..i] :: SortBy(lists[t].GetOr([]), OrderKey)
    {
      var t := types[i];
      if t !in lists {
        return None;
      }
      assert types[..i + 1] == types[..i] + [t];
      masterDataMap := masterDataMap[t := SortBy(lists[t].GetOr([]), OrderKey)];
    }
    assert types[..|types|] == types;
    assert forall t :: t in types ==> t in lists;
    assert masterDataMap == map t | t in types :: SortBy(lists[t].GetOr([]), OrderKey);
    return Some(masterDataMap);
  }

  /** Each loaded list holds the type's items, sorted by `order || 0`, ties in arrival order. */
  lemma MasterDataSorted(types: seq<string>, lists: map<string, Option<seq<MasterDataItem>>>, t: string)
    requires MasterDataFor(types, lists).Some? && t in types
    ensures t in MasterDataFor(types, lists).value
    ensures SortedBy(MasterDataFor(types, lists).value[t], OrderKey)
    ensures multiset(MasterDataFor(types, lists).value[t]) == multiset(lists[t].GetOr([]))
  {
    SortByCorrect(lists[t].GetOr([]), OrderKey);
  }
}
