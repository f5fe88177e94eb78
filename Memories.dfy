/** The memory page: memories grouped by type, the type styling, the stats
    row and the importance dots. */
module Memories {
  import opened Wrappers
  import Strings

  datatype Memory = Memory(id: string, content: string, memoryType: string, tags: seq<string>, importance: Option<int>)

  /** The group a memory goes to: its type, or "fact" when it has none. */
  function TypeKey(m: Memory): (key: string)
    ensures key != ""
    ensures m.memoryType != "" ==> key == m.memoryType
  {
    if m.memoryType == "" then "fact" else m.memoryType
  }

  /** The group keys in the order their first memory appears. */
  function TypeOrder(ms: seq<Memory>): (order: seq<string>)
    ensures |order| <= |ms|
    ensures ms != [] ==> order != [] && order[0] == TypeKey(ms[0])
  {
    if ms == [] then []
    else
      var init := TypeOrder(ms[..|ms| - 1]);
      var key := TypeKey(ms[|ms| - 1]);
      if key in init then init else init + [key]
  }

  /** The keys are exactly the memories' types, each listed once. */
  lemma {:induction false} TypeOrderKeys(ms: seq<Memory>)
    ensures forall k :: k in TypeOrder(ms) <==> exists i :: 0 <= i < |ms| && TypeKey(ms[i]) == k
    ensures Strings.Distinct(TypeOrder(ms))
  {
    if ms != [] {
      var init := ms[..|ms| - 1];
      TypeOrderKeys(init);
      forall k | k in TypeOrder(ms)
        ensures exists i :: 0 <= i < |ms| && TypeKey(ms[i]) == k
      {
        if k in TypeOrder(init) {
          var i :| 0 <= i < |init| && TypeKey(init[i]) == k;
          assert ms[i] == init[i];
        } else {
          assert TypeKey(ms[|ms| - 1]) == k;
        }
      }
      forall k | exists i :: 0 <= i < |ms| && TypeKey(ms[i]) == k
        ensures k in TypeOrder(ms)
      {
        var i :| 0 <= i < |ms| && TypeKey(ms[i]) == k;
        if i < |ms| - 1 {
          assert init[i] == ms[i];
        }
      }
    }
  }

  /** Where the first memory of a key stands; |ms| when there is none. */
  function FirstIndex(ms: seq<Memory>, key: string): (i: nat)
    ensures i <= |ms|
    ensures i < |ms| ==> TypeKey(ms[i]) == key
    ensures forall j :: 0 <= j < i ==> TypeKey(ms[j]) != key
  {
    if ms == [] then 0
    else
      var init := ms[..|ms| - 1];
      var f := FirstIndex(init, key);
      assert forall j :: 0 <= j < |init| ==> init[j] == ms[j];
      if f < |init| then f
      else if TypeKey(ms[|ms| - 1]) == key then |init|
      else |ms|
  }

  /** Every group key has a memory, and the keys are listed in the order
      of their first memory, as the reduce creates the groups. */
  lemma {:induction false} TypeOrderFirstOccurrence(ms: seq<Memory>)
    ensures forall a :: 0 <= a < |TypeOrder(ms)| ==> FirstIndex(ms, TypeOrder(ms)[a]) < |ms|
    ensures forall a, b :: 0 <= a < b < |TypeOrder(ms)| ==>
      FirstIndex(ms, TypeOrder(ms)[a]) < FirstIndex(ms, TypeOrder(ms)[b])
  {
    if ms != [] {
      var init := ms[..|ms| - 1];
      var key := TypeKey(ms[|ms| - 1]);
      TypeOrderFirstOccurrence(init);
      TypeOrderKeys(init);
      var before := TypeOrder(init);
      assert forall a :: 0 <= a < |before| ==> FirstIndex(ms, before[a]) == FirstIndex(init, before[a]);
      if key !in before {
        assert FirstIndex(init, key) == |init|;
        assert FirstIndex(ms, key) == |init|;
        assert TypeOrder(ms) == before + [key];
      }
    }
  }

  /** The memories of one group, in their original order. */
  function Group(ms: seq<Memory>, key: string): (g: seq<Memory>)
    ensures |g| <= |ms|
    ensures forall i :: 0 <= i < |g| ==> TypeKey(g[i]) == key
    ensures ms != [] && TypeKey(ms[0]) == key ==> g != [] && g[0] == ms[0]
  {
    if ms == [] then []
    else Group(ms[..|ms| - 1], key) + (if TypeKey(ms[|ms| - 1]) == key then [ms[|ms| - 1]] else [])
  }

  /** The positions of the memories of one key, in ascending order. */
  function KeyIndices(ms: seq<Memory>, key: string): (idx: seq<nat>)
    ensures forall i :: i in idx <==> 0 <= i < |ms| && TypeKey(ms[i]) == key
    ensures forall j :: 0 <= j < |idx| ==> idx[j] < |ms|
    ensures forall a, b :: 0 <= a < b < |idx| ==> idx[a] < idx[b]
  {
    if ms == [] then []
    else
      var init := ms[..|ms| - 1];
      assert forall i :: 0 <= i < |init| ==> init[i] == ms[i];
      KeyIndices(init, key) + (if TypeKey(ms[|ms| - 1]) == key then [|ms| - 1] else [])
  }

  /** A group is exactly the memories of its key, in their original order:
      its j-th entry is the memory at the j-th position of that key. */
  lemma {:induction false} GroupIsKeySubsequence(ms: seq<Memory>, key: string)
    ensures |Group(ms, key)| == |KeyIndices(ms, key)|
    ensures forall j :: 0 <= j < |Group(ms, key)| ==> Group(ms, key)[j] == ms[KeyIndices(ms, key)[j]]
  {
    if ms != [] {
      var init := ms[..|ms| - 1];
      var m := ms[|ms| - 1];
      GroupIsKeySubsequence(init, key);
      var g, idx := Group(init, key), KeyIndices(init, key);
      var tail := if TypeKey(m) == key then [m] else [];
      var tailIdx := if TypeKey(m) == key then [|ms| - 1] else [];
      assert Group(ms, key) == g + tail;
      assert KeyIndices(ms, key) == idx + tailIdx;
      forall j | 0 <= j < |g + tail|
        ensures (g + tail)[j] == ms[(idx + tailIdx)[j]]
      {
        if j < |g| {
          assert init[idx[j]] == ms[idx[j]];
        }
      }
    }
  }

  /** Every memory lands in exactly one group, that of its own key, and
      stands there at the place its position among that key's memories
      gives it; its key is one of the listed group keys. */
  lemma EveryMemoryInOneGroup(ms: seq<Memory>, i: int)
    requires 0 <= i < |ms|
    ensures TypeKey(ms[i]) in TypeOrder(ms)
    ensures forall k :: i in KeyIndices(ms, k) <==> k == TypeKey(ms[i])
    ensures exists j :: (0 <= j < |KeyIndices(ms, TypeKey(ms[i]))| && j < |Group(ms, TypeKey(ms[i]))| &&
                         KeyIndices(ms, TypeKey(ms[i]))[j] == i && Group(ms, TypeKey(ms[i]))[j] == ms[i])
  {
    var key := TypeKey(ms[i]);
    TypeOrderKeys(ms);
    GroupIsKeySubsequence(ms, key);
    var idx := KeyIndices(ms, key);
    assert i in idx;
    var j :| 0 <= j < |idx| && idx[j] == i;
    assert Group(ms, key)[j] == ms[i];
  }

  /** A group holds memories of its type only, each from the list. */
  lemma {:induction false} GroupMembers(ms: seq<Memory>, key: string)
    ensures |Group(ms, key)| <= |ms|
    ensures forall m :: m in Group(ms, key) ==> m in ms && TypeKey(m) == key
  {
    if ms != [] {
      var init := ms[..|ms| - 1];
      GroupMembers(init, key);
      assert forall m :: m in init ==> m in ms;
    }
  }

  /** A key no memory has has an empty group. */
  lemma {:induction false} GroupOfAbsentKey(ms: seq<Memory>, key: string)
    requires key !in TypeOrder(ms)
    ensures Group(ms, key) == []
  {
    if ms != [] {
      var init := ms[..|ms| - 1];
      assert key !in TypeOrder(init);
      GroupOfAbsentKey(init, key);
    }
  }

  /** One more memory: how the key order and every group change. */
  lemma GroupStep(ms: seq<Memory>, i: int)
    requires 0 <= i < |ms|
    ensures ms[..i + 1][..i] == ms[..i] && ms[..i + 1][i] == ms[i]
    ensures TypeOrder(ms[..i + 1]) == if TypeKey(ms[i]) in TypeOrder(ms[..i]) then TypeOrder(ms[..i]) else TypeOrder(ms[..i]) + [TypeKey(ms[i])]
    ensures forall k :: Group(ms[..i + 1], k) == Group(ms[..i], k) + (if TypeKey(ms[i]) == k then [ms[i]] else [])
  {
    assert ms[..i + 1][..i] == ms[..i];
  }

  /** The reduce over the memories: each memory is appended to its group,
      a group being created when its first memory arrives. */
  method GroupByType(ms: seq<Memory>) returns (order: seq<string>, groups: map<string, seq<Memory>>)
    ensures order == TypeOrder(ms)
    ensures forall k :: k in groups <==> k in order
    ensures forall k :: k in groups ==> groups[k] == Group(ms, k)
  {
    order := [];
    groups := map[];
    var i := 0;
    while i < |ms|
      invariant 0 <= i <= |ms|
      invariant order == TypeOrder(ms[..i])
      invariant forall k :: k in groups <==> k in order
      invariant forall k :: k in groups ==> groups[k] == Group(ms[..i], k)
    {
      var m := ms[i];
      var key := TypeKey(m);
      GroupStep(ms, i);
      if key !in groups {
        GroupOfAbsentKey(ms[..i], key);
        groups := groups[key := []];
        order := order + [key];
      }
      groups := groups[key := groups[key] + [m]];
      i := i + 1;
    }
    assert ms[..i] == ms;
  }

  /** The total of the group sizes over the keys of `order`. */
  function SizeSum(order: seq<string>, ms: seq<Memory>): nat
  {
    if order == [] then 0 else SizeSum(order[..|order| - 1], ms) + |Group(ms, order[|order| - 1])|
  }

  /** How many times `key` occurs in `order`. */
  function Count(order: seq<string>, key: string): nat
  {
    if order == [] then 0 else Count(order[..|order| - 1], key) + (if order[|order| - 1] == key then 1 else 0)
  }

  lemma {:induction false} SizeSumAppend(order: seq<string>, ms: seq<Memory>, m: Memory)
    ensures SizeSum(order, ms + [m]) == SizeSum(order, ms) + Count(order, TypeKey(m))
  {
    assert (ms + [m])[..|ms + [m]| - 1] == ms;
    if order != [] {
      SizeSumAppend(order[..|order| - 1], ms, m);
    }
  }

  lemma {:induction false} CountDistinct(order: seq<string>, key: string)
    requires forall i, j :: 0 <= i < j < |order| ==> order[i] != order[j]
    ensures Count(order, key) == if key in order then 1 else 0
  {
    if order != [] {
      var init := order[..|order| - 1];
      CountDistinct(init, key);
      assert order == init + [order[|order| - 1]];
    }
  }

  lemma {:induction false} SizeSumNewKey(order: seq<string>, ms: seq<Memory>, key: string)
    ensures SizeSum(order + [key], ms) == SizeSum(order, ms) + |Group(ms, key)|
  {
    assert (order + [key])[..|order + [key]| - 1] == order;
  }

  /** Every memory lands in exactly one group: the group sizes add up to the
      number of memories. */
  lemma {:induction false} GroupSizesSum(ms: seq<Memory>)
    ensures SizeSum(TypeOrder(ms), ms) == |ms|
  {
    if ms != [] {
      var init := ms[..|ms| - 1];
      var m := ms[|ms| - 1];
      var key := TypeKey(m);
      GroupSizesSum(init);
      assert init + [m] == ms;
      var order := TypeOrder(init);
      SizeSumAppend(order, init, m);
      TypeOrderKeys(init);
      CountDistinct(order, key);
      if key !in order {
        GroupOfAbsentKey(init, key);
        SizeSumNewKey(order, ms, key);
      }
    }
  }

  /** How a type is drawn. */
  datatype TypeStyle = TypeStyle(name: string, icon: string, color: string)

  const FactStyle: TypeStyle := TypeStyle("事实", "lightbulb", "#f59e0b")

  const MemoryTypes: seq<(string, TypeStyle)> := [
    ("fact", FactStyle),
    ("preference", TypeStyle("偏好", "heart", "#ec4899")),
    ("experience", TypeStyle("经历", "clock-time-four", "#8b5cf6")),
    ("relationship", TypeStyle("关系", "account-group", "#06b6d4"))
  ]

  /** `getTypeConfig(type)`: an unknown type keeps its own group but is
      drawn as a fact. */
  function GetTypeConfig(memoryType: string): (style: TypeStyle)
    ensures (forall i :: 0 <= i < |MemoryTypes| ==> MemoryTypes[i].0 != memoryType) ==> style == FactStyle
    ensures forall i :: 0 <= i < |MemoryTypes| && MemoryTypes[i].0 == memoryType ==> style == MemoryTypes[i].1
  {
    if memoryType == "preference" then MemoryTypes[1].1
    else if memoryType == "experience" then MemoryTypes[2].1
    else if memoryType == "relationship" then MemoryTypes[3].1
    else FactStyle
  }

  /** The stats row: the counts of the first three groups. */
  function StatsGroups(order: seq<string>): (shown: seq<string>)
    ensures |shown| == if |order| < 3 then |order| else 3
    ensures shown <= order
  {
    Strings.Take(order, 3)
  }

  /** `importance || 5`. */
  function EffectiveImportance(importance: Option<int>): int
  {
    if importance.None? || importance.value == 0 then 5 else importance.value
  }

  /** `Array.from({length: Math.min(importance || 5, 5)})`: a negative
      length gives no dots. */
  function DotCount(importance: Option<int>): (n: nat)
    ensures n <= 5
    ensures importance.None? || importance.value == 0 ==> n == 5
    ensures importance.Some? && 0 < importance.value <= 5 ==> n == importance.value
    ensures importance.Some? && importance.value > 5 ==> n == 5
    ensures importance.Some? && importance.value < 0 ==> n == 0
  {
    var length := if EffectiveImportance(importance) < 5 then EffectiveImportance(importance) else 5;
    if length < 0 then 0 else length
  }

  /** Every dot drawn is a full-colour one (its index is below `importance || 5`). */
  lemma AllDotsFull(importance: Option<int>, i: int)
    requires 0 <= i < DotCount(importance)
    ensures i < EffectiveImportance(importance)
  {
  }
}
