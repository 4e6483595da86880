/**
 The log of failed attempts: distinct (address, traits, kind) keys, at most `cap` of them,
 a repeat counted in place, the least recently seen evicted when full.
 */
module FailureLog {
  import opened Common

  datatype Kind = FourWayMic | SaeFailure | CcmpData | ProtectedMgmt

  datatype Key = Key(mac: nat, traits: nat, kind: Kind)

  datatype Record = Record(key: Key, count: nat, firstSeq: nat, lastSeq: nat)

  // ---- what the log is meant to hold ----------------------------------------------------------

  // The keys of a history, each once, ordered by their last occurrence.
  function ByLastSeen(history: seq<Key>): seq<Key> {
    if history == [] then [] else
      var k := history[|history| - 1];
      Without(ByLastSeen(history[..|history| - 1]), k) + [k]
  }

  function Without(ks: seq<Key>, k: Key): seq<Key> {
    if ks == [] then []
    else Without(ks[..|ks| - 1], k) + (if ks[|ks| - 1] == k then [] else [ks[|ks| - 1]])
  }

  // The most recently seen `cap` keys, all of them if fewer.
  function Recent(history: seq<Key>, cap: nat): seq<Key> {
    var ks := ByLastSeen(history);
    if |ks| <= cap then ks else ks[|ks| - cap..]
  }

  // Occurrences of k since it last entered a log of this capacity.
  function CountSinceEntry(history: seq<Key>, cap: nat, k: Key): nat {
    if history == [] then 0 else
      var before := history[..|history| - 1];
      var last := history[|history| - 1] == k;
      if k in Recent(before, cap) then CountSinceEntry(before, cap, k) + (if last then 1 else 0)
      else if last then 1 else 0
  }

  // The number of the last occurrence of k, counting from 1; 0 if there is none.
  function LastSeen(history: seq<Key>, k: Key): nat {
    if history == [] then 0
    else if history[|history| - 1] == k then |history|
    else LastSeen(history[..|history| - 1], k)
  }

  // ---- facts about recency order ------------------------------------------------------------------

  predicate Distinct(ks: seq<Key>) {
    forall i, j :: 0 <= i < j < |ks| ==> ks[i] != ks[j]
  }

  lemma {:induction false} WithoutFacts(ks: seq<Key>, k: Key)
    requires Distinct(ks)
    ensures Distinct(Without(ks, k))
    ensures forall x :: x in Without(ks, k) <==> x in ks && x != k
    ensures |Without(ks, k)| == |ks| - (if k in ks then 1 else 0)
  {
    if ks != [] {
      var front, last := ks[..|ks| - 1], ks[|ks| - 1];
      assert ks == front + [last];
      WithoutFacts(front, k);
      assert last !in front;
    }
  }

  lemma {:induction false} ByLastSeenFacts(history: seq<Key>)
    ensures Distinct(ByLastSeen(history))
    ensures forall k :: k in ByLastSeen(history) <==> k in history
  {
    if history != [] {
      var front, k := history[..|history| - 1], history[|history| - 1];
      assert history == front + [k];
      ByLastSeenFacts(front);
      WithoutFacts(ByLastSeen(front), k);
    }
  }

  lemma {:induction false} LastSeenFacts(history: seq<Key>, k: Key)
    ensures LastSeen(history, k) <= |history|
    ensures k in history <==> LastSeen(history, k) > 0
    ensures LastSeen(history, k) > 0 ==> history[LastSeen(history, k) - 1] == k
    ensures forall i :: LastSeen(history, k) <= i < |history| ==> history[i] != k
  {
    if history != [] && history[|history| - 1] != k {
      LastSeenFacts(history[..|history| - 1], k);
    }
  }

  // The order is that of the last occurrences.
  predicate OrderedByLastSeen(ks: seq<Key>, history: seq<Key>) {
    forall i, j :: 0 <= i < j < |ks| ==> LastSeen(history, ks[i]) < LastSeen(history, ks[j])
  }

  lemma {:induction false} WithoutKeepsOrder(ks: seq<Key>, k: Key, history: seq<Key>)
    requires OrderedByLastSeen(ks, history) && Distinct(ks)
    ensures OrderedByLastSeen(Without(ks, k), history)
  {
    if ks != [] {
      var front, last := ks[..|ks| - 1], ks[|ks| - 1];
      WithoutKeepsOrder(front, k, history);
      WithoutFacts(front, k);
      var w := Without(front, k);
      forall i | 0 <= i < |w| ensures LastSeen(history, w[i]) < LastSeen(history, last) {
        assert w[i] in front;
      }
    }
  }

  lemma {:induction false} ByLastSeenOrdered(history: seq<Key>)
    ensures OrderedByLastSeen(ByLastSeen(history), history)
  {
    if history != [] {
      var front, k := history[..|history| - 1], history[|history| - 1];
      ByLastSeenOrdered(front);
      ByLastSeenFacts(front);
      WithoutKeepsOrder(ByLastSeen(front), k, front);
      WithoutFacts(ByLastSeen(front), k);
      var w := Without(ByLastSeen(front), k);
      forall i | 0 <= i < |w| ensures LastSeen(history, w[i]) == LastSeen(front, w[i]) <= |front| {
        assert w[i] in w;
        LastSeenFacts(front, w[i]);
      }
    }
  }

  // ---- one more occurrence -----------------------------------------------------------------------------

  lemma {:induction false} WithoutConcat(p: seq<Key>, r: seq<Key>, k: Key)
    ensures Without(p + r, k) == Without(p, k) + Without(r, k)
  {
    if r == [] {
      assert p + r == p;
    } else {
      assert (p + r)[..|p + r| - 1] == p + r[..|r| - 1];
      WithoutConcat(p, r[..|r| - 1], k);
    }
  }

  lemma {:induction false} WithoutAbsent(ks: seq<Key>, k: Key)
    requires k !in ks
    ensures Without(ks, k) == ks
  {
    if ks != [] {
      WithoutAbsent(ks[..|ks| - 1], k);
      assert ks == ks[..|ks| - 1] + [ks[|ks| - 1]];
    }
  }

  lemma {:induction false} RecentFacts(history: seq<Key>, cap: nat)
    ensures Distinct(Recent(history, cap)) && OrderedByLastSeen(Recent(history, cap), history)
    ensures |Recent(history, cap)| <= cap
    ensures forall k :: k in Recent(history, cap) ==> k in history
  {
    ByLastSeenFacts(history);
    ByLastSeenOrdered(history);
  }

  lemma {:induction false} TailOf(p: seq<Key>, t: seq<Key>)
    ensures (p + t)[|p + t| - |t|..] == t
  {
  }

  // What the history's next key does to the recent ones: in the log it moves to the end; a new
  // one is appended, at the price of the first when the log is full.
  function NextRecent(r: seq<Key>, cap: nat, k: Key): seq<Key> {
    if k in r then Without(r, k) + [k] else if |r| < cap || r == [] then r + [k] else r[1..] + [k]
  }

  lemma {:induction false} RecentSnoc(history: seq<Key>, cap: nat, k: Key)
    requires cap >= 1
    ensures Recent(history + [k], cap) == NextRecent(Recent(history, cap), cap, k)
  {
    var all := ByLastSeen(history);
    assert (history + [k])[..|history + [k]| - 1] == history;
    assert ByLastSeen(history + [k]) == Without(all, k) + [k];
    ByLastSeenFacts(history);
    hide ByLastSeen;
    TailSnoc(all, cap, k);
  }

  function Tail(ks: seq<Key>, cap: nat): seq<Key> {
    if |ks| <= cap then ks else ks[|ks| - cap..]
  }

  lemma {:induction false} TailSnoc(all: seq<Key>, cap: nat, k: Key)
    requires cap >= 1 && Distinct(all)
    ensures Tail(Without(all, k) + [k], cap) == NextRecent(Tail(all, cap), cap, k)
  {
    var r := Tail(all, cap);
    var p := all[..|all| - |r|];
    assert all == p + r;
    WithoutConcat(p, r, k);
    DistinctParts(p, r);
    hide Without, Distinct;
    if k in r {
      TailSnocSeen(p, r, cap, k);
    } else {
      WithoutAbsent(r, k);
      TailSnocNew(p, r, Without(p, k), cap, k);
      if p == [] {
        WithoutAbsent(p, k);
      }
    }
  }

  lemma {:induction false} TailSnocSeen(p: seq<Key>, r: seq<Key>, cap: nat, k: Key)
    requires Distinct(r) && k in r && k !in p && |r| <= cap && (p == [] || |r| == cap)
    ensures Tail(Without(p, k) + Without(r, k) + [k], cap) == Without(r, k) + [k]
  {
    WithoutAbsent(p, k);
    WithoutFacts(r, k);
    hide Without, Distinct;
    assert p + Without(r, k) + [k] == p + (Without(r, k) + [k]);
    TailOf(p, Without(r, k) + [k]);
  }

  lemma {:induction false} TailSnocNew(p: seq<Key>, r: seq<Key>, q: seq<Key>, cap: nat, k: Key)
    requires cap >= 1 && |r| <= cap && (p == [] || |r| == cap) && (p == [] ==> q == [])
    ensures Tail(q + r + [k], cap) == if |r| < cap || r == [] then r + [k] else r[1..] + [k]
  {
    if |r| < cap {
      assert q + r + [k] == r + [k];
    } else {
      assert q + r + [k] == (q + [r[0]]) + (r[1..] + [k]);
      TailOf(q + [r[0]], r[1..] + [k]);
    }
  }

  lemma {:induction false} DistinctParts(p: seq<Key>, r: seq<Key>)
    requires Distinct(p + r)
    ensures Distinct(p) && Distinct(r) && forall k :: k in p ==> k !in r
  {
    assert forall i :: 0 <= i < |p| ==> (p + r)[i] == p[i];
    assert forall j :: 0 <= j < |r| ==> (p + r)[|p| + j] == r[j];
  }

  // ---- the log as an object ---------------------------------------------------------------------------------

  ghost predicate Describes(r: Record, history: seq<Key>, cap: nat) {
    r.lastSeq == LastSeen(history, r.key) && r.count == CountSinceEntry(history, cap, r.key)
  }

  function KeysOf(records: seq<Record>): (ks: seq<Key>)
    ensures |ks| == |records| && forall i :: 0 <= i < |ks| ==> ks[i] == records[i].key
  {
    if records == [] then [] else KeysOf(records[..|records| - 1]) + [records[|records| - 1].key]
  }

  ghost predicate SameMembers(a: seq<Key>, b: seq<Key>) {
    |a| == |b| && forall k :: k in a <==> k in b
  }

  // The records are those of the most recent keys, in any order.
  ghost predicate Holds(records: seq<Record>, history: seq<Key>, cap: nat) {
    && Distinct(KeysOf(records))
    && SameMembers(KeysOf(records), Recent(history, cap))
    && forall i :: 0 <= i < |records| ==> Describes(records[i], history, cap)
  }

  lemma {:induction false} DescribesOther(r: Record, history: seq<Key>, cap: nat, k: Key)
    requires Describes(r, history, cap) && r.key != k && r.key in Recent(history, cap)
    ensures Describes(r, history + [k], cap)
  {
    assert (history + [k])[..|history + [k]| - 1] == history;
  }

  lemma {:induction false} DescribesSeen(r: Record, history: seq<Key>, cap: nat)
    requires Describes(r, history, cap) && r.key in Recent(history, cap)
    ensures Describes(r.(count := r.count + 1, lastSeq := |history| + 1), history + [r.key], cap)
  {
    assert (history + [r.key])[..|history + [r.key]| - 1] == history;
  }

  lemma {:induction false} DescribesNew(history: seq<Key>, cap: nat, k: Key)
    requires k !in Recent(history, cap)
    ensures Describes(Record(k, 1, |history| + 1, |history| + 1), history + [k], cap)
  {
    assert (history + [k])[..|history + [k]| - 1] == history;
  }

  lemma {:induction false} KeysAre(records: seq<Record>, ks: seq<Key>)
    requires |ks| == |records| && forall i :: 0 <= i < |ks| ==> ks[i] == records[i].key
    ensures KeysOf(records) == ks
  {
  }

  // The descriptions of the other records survive.
  lemma {:induction false} OthersDescribed(records: seq<Record>, history: seq<Key>, cap: nat, k: Key, j: nat)
    requires Holds(records, history, cap) && j < |records| && records[j].key != k
    ensures Describes(records[j], history + [k], cap)
  {
    assert KeysOf(records)[j] in KeysOf(records);
    DescribesOther(records[j], history, cap, k);
  }

  lemma {:induction false} BumpMembers(ks: seq<Key>, history: seq<Key>, cap: nat, k: Key)
    requires SameMembers(ks, Recent(history, cap)) && cap >= 1 && k in ks
    ensures SameMembers(ks, Recent(history + [k], cap))
  {
    RecentFacts(history, cap);
    RecentSnoc(history, cap, k);
    WithoutFacts(Recent(history, cap), k);
    hide Recent, Without, OrderedByLastSeen;
  }

  lemma {:induction false} BumpKeeps(records: seq<Record>, history: seq<Key>, cap: nat, k: Key, i: nat)
    requires Holds(records, history, cap) && cap >= 1 && i < |records| && records[i].key == k
    ensures Holds(records[i := records[i].(count := records[i].count + 1, lastSeq := |history| + 1)], history + [k], cap)
  {
    var ks := KeysOf(records);
    var next := records[i := records[i].(count := records[i].count + 1, lastSeq := |history| + 1)];
    KeysAre(next, ks);
    assert ks[i] == k && k in ks;
    hide Recent, Describes, KeysOf, SameMembers;
    BumpMembers(ks, history, cap, k);
    InRecent(ks, history, cap, k);
    DescribesSeen(records[i], history, cap);
    forall j | 0 <= j < |next| ensures Describes(next[j], history + [k], cap) {
      if j != i {
        assert ks[j] != ks[i];
        OthersDescribed(records, history, cap, k, j);
      }
    }
  }

  lemma {:induction false} InRecent(ks: seq<Key>, history: seq<Key>, cap: nat, k: Key)
    requires SameMembers(ks, Recent(history, cap))
    ensures k in ks <==> k in Recent(history, cap)
    ensures |ks| == |Recent(history, cap)|
  {
  }

  lemma {:induction false} AppendKeeps(records: seq<Record>, history: seq<Key>, cap: nat, k: Key)
    requires Holds(records, history, cap) && |records| < cap && k !in KeysOf(records)
    ensures Holds(records + [Record(k, 1, |history| + 1, |history| + 1)], history + [k], cap)
  {
    var r, ks := Recent(history, cap), KeysOf(records);
    var next := records + [Record(k, 1, |history| + 1, |history| + 1)];
    KeysAre(next, ks + [k]);
    RecentSnoc(history, cap, k);
    DescribesNew(history, cap, k);
    hide Recent, Describes;
    AppendDescribes(records, history, cap, k);
  }

  lemma {:induction false} AppendDescribes(records: seq<Record>, history: seq<Key>, cap: nat, k: Key)
    requires Holds(records, history, cap) && k !in KeysOf(records)
    requires Describes(Record(k, 1, |history| + 1, |history| + 1), history + [k], cap)
    ensures var next := records + [Record(k, 1, |history| + 1, |history| + 1)];
            forall j :: 0 <= j < |next| ==> Describes(next[j], history + [k], cap)
  {
    hide Recent, Describes;
    var ks := KeysOf(records);
    forall j | 0 <= j < |records| ensures Describes(records[j], history + [k], cap) {
      assert ks[j] in ks;
      DescribesOther(records[j], history, cap, k);
    }
  }

  // The record seen longest ago is that of the first recent key.
  lemma {:induction false} VictimIsFirst(records: seq<Record>, history: seq<Key>, cap: nat, victim: nat)
    requires Holds(records, history, cap) && victim < |records|
    requires forall j :: 0 <= j < |records| ==> records[victim].lastSeq <= records[j].lastSeq
    ensures records[victim].key == Recent(history, cap)[0]
  {
    var r, ks := Recent(history, cap), KeysOf(records);
    RecentFacts(history, cap);
    hide Recent;
    assert r[0] in ks && ks[victim] in r;
    var j :| 0 <= j < |ks| && ks[j] == r[0];
    var i :| 0 <= i < |r| && r[i] == ks[victim];
    OrderedAt(r, history, i);
  }

  lemma {:induction false} OrderedAt(ks: seq<Key>, history: seq<Key>, i: nat)
    requires OrderedByLastSeen(ks, history) && i < |ks|
    ensures i == 0 || LastSeen(history, ks[0]) < LastSeen(history, ks[i])
  {
  }

  function RemoveAt<T>(s: seq<T>, i: nat): seq<T>
    requires i < |s|
  {
    s[..i] + s[i + 1..]
  }

  lemma {:induction false} RemoveAtFacts(ks: seq<Key>, v: nat)
    requires Distinct(ks) && v < |ks|
    ensures Distinct(RemoveAt(ks, v)) && forall k :: k in RemoveAt(ks, v) <==> k in ks && k != ks[v]
  {
    var w := RemoveAt(ks, v);
    assert forall i :: 0 <= i < |w| ==> w[i] == ks[if i < v then i else i + 1];
    forall k | k in ks && k != ks[v] ensures k in w {
      var i :| 0 <= i < |ks| && ks[i] == k;
      assert w[if i < v then i else i - 1] == k;
    }
  }

  lemma {:induction false} TailMembers(r: seq<Key>)
    requires Distinct(r) && r != []
    ensures forall k :: k in r[1..] <==> k in r && k != r[0]
  {
    RemoveAtFacts(r, 0);
    assert RemoveAt(r, 0) == r[1..];
  }

  lemma {:induction false} EvictMembers(ks: seq<Key>, history: seq<Key>, cap: nat, k: Key, victim: nat)
    requires Distinct(ks) && SameMembers(ks, Recent(history, cap)) && victim < |ks| && |ks| >= cap >= 1 && k !in ks
    requires ks[victim] == Recent(history, cap)[0]
    ensures SameMembers(RemoveAt(ks, victim) + [k], Recent(history + [k], cap)) && Distinct(RemoveAt(ks, victim) + [k])
  {
    RecentFacts(history, cap);
    RecentSnoc(history, cap, k);
    RemoveAtFacts(ks, victim);
    TailMembers(Recent(history, cap));
    hide Recent, OrderedByLastSeen;
  }

  lemma {:induction false} EvictDescribes(records: seq<Record>, history: seq<Key>, cap: nat, k: Key, victim: nat, j: nat)
    requires Holds(records, history, cap) && victim < |records| && k !in KeysOf(records) && j < |records| - 1
    ensures Describes(RemoveAt(records, victim)[j], history + [k], cap)
  {
    hide Describes, Holds;
    var i := if j < victim then j else j + 1;
    assert RemoveAt(records, victim)[j] == records[i];
    assert KeysOf(records)[i] == records[i].key && KeysOf(records)[i] in KeysOf(records);
    OthersDescribed(records, history, cap, k, i);
  }

  lemma {:induction false} NewcomerDescribed(records: seq<Record>, history: seq<Key>, cap: nat, k: Key)
    requires Holds(records, history, cap) && k !in KeysOf(records)
    ensures Describes(Record(k, 1, |history| + 1, |history| + 1), history + [k], cap)
  {
    hide Recent;
    DescribesNew(history, cap, k);
  }

  lemma {:induction false} EvictKeeps(records: seq<Record>, history: seq<Key>, cap: nat, k: Key, victim: nat)
    requires Holds(records, history, cap) && cap >= 1 && |records| >= cap && victim < |records|
    requires k !in KeysOf(records)
    requires forall j :: 0 <= j < |records| ==> records[victim].lastSeq <= records[j].lastSeq
    ensures Holds(RemoveAt(records, victim) + [Record(k, 1, |history| + 1, |history| + 1)], history + [k], cap)
  {
    hide Recent, Describes, SameMembers, LastSeen, CountSinceEntry;
    var ks, kept := KeysOf(records), RemoveAt(records, victim);
    KeysAre(kept + [Record(k, 1, |history| + 1, |history| + 1)], RemoveAt(ks, victim) + [k]);
    VictimIsFirst(records, history, cap, victim);
    EvictMembers(ks, history, cap, k, victim);
    NewcomerDescribed(records, history, cap, k);
    forall j | 0 <= j < |kept| ensures Describes(kept[j], history + [k], cap) {
      EvictDescribes(records, history, cap, k, victim, j);
    }
  }

  // ---- ordering -------------------------------------------------------------------------------------------------

  function Insert(sorted: seq<Record>, r: Record): seq<Record> {
    if sorted == [] then [r]
    else if sorted[|sorted| - 1].lastSeq <= r.lastSeq then sorted + [r]
    else Insert(sorted[..|sorted| - 1], r) + [sorted[|sorted| - 1]]
  }

  // Stands for the library's stable sort by last occurrence.
  function SortByLastSeen(records: seq<Record>): seq<Record> {
    if records == [] then [] else Insert(SortByLastSeen(records[..|records| - 1]), records[|records| - 1])
  }

  predicate Sorted(records: seq<Record>) {
    forall i, j :: 0 <= i < j < |records| ==> records[i].lastSeq <= records[j].lastSeq
  }

  lemma {:induction false} InsertSorts(sorted: seq<Record>, r: Record)
    requires Sorted(sorted)
    ensures Sorted(Insert(sorted, r)) && |Insert(sorted, r)| == |sorted| + 1
    ensures forall x :: x in Insert(sorted, r) <==> x in sorted || x == r
  {
    if sorted != [] && sorted[|sorted| - 1].lastSeq > r.lastSeq {
      var front, last := sorted[..|sorted| - 1], sorted[|sorted| - 1];
      InsertSorts(front, r);
      assert sorted == front + [last];
      var w := Insert(front, r);
      forall i | 0 <= i < |w| ensures w[i].lastSeq <= last.lastSeq {
        assert w[i] in w;
      }
    }
  }

  lemma {:induction false} SortSorts(records: seq<Record>)
    ensures Sorted(SortByLastSeen(records)) && |SortByLastSeen(records)| == |records|
    ensures forall x :: x in SortByLastSeen(records) <==> x in records
  {
    if records != [] {
      var front := records[..|records| - 1];
      SortSorts(front);
      InsertSorts(SortByLastSeen(front), records[|records| - 1]);
      assert records == front + [records[|records| - 1]];
    }
  }

  lemma {:induction false} LastApart(ks: seq<Key>, history: seq<Key>)
    requires OrderedByLastSeen(ks, history) && ks != []
    ensures forall k :: k in ks[..|ks| - 1] <==> k in ks && k != ks[|ks| - 1]
    ensures forall k :: k in ks ==> LastSeen(history, k) <= LastSeen(history, ks[|ks| - 1])
  {
    var front, last := ks[..|ks| - 1], ks[|ks| - 1];
    assert ks == front + [last];
    assert forall i :: 0 <= i < |front| ==> LastSeen(history, front[i]) < LastSeen(history, last);
  }

  lemma {:induction false} LastIsLatest(a: seq<Key>, b: seq<Key>, history: seq<Key>)
    requires OrderedByLastSeen(b, history) && a != [] && b != [] && a[|a| - 1] in b
    ensures LastSeen(history, a[|a| - 1]) <= LastSeen(history, b[|b| - 1])
    ensures LastSeen(history, a[|a| - 1]) == LastSeen(history, b[|b| - 1]) ==> a[|a| - 1] == b[|b| - 1]
  {
    hide LastSeen;
    var i :| 0 <= i < |b| && b[i] == a[|a| - 1];
    assert i < |b| - 1 ==> LastSeen(history, b[i]) < LastSeen(history, b[|b| - 1]);
  }

  lemma {:induction false} LastIsShared(a: seq<Key>, b: seq<Key>, history: seq<Key>)
    requires OrderedByLastSeen(a, history) && OrderedByLastSeen(b, history) && SameMembers(a, b) && a != []
    ensures a[|a| - 1] == b[|b| - 1]
  {
    assert a[|a| - 1] in a && b[|b| - 1] in b;
    hide LastSeen, OrderedByLastSeen;
    LastIsLatest(a, b, history);
    LastIsLatest(b, a, history);
  }

  lemma {:induction false} FrontsShareMembers(a: seq<Key>, b: seq<Key>, history: seq<Key>)
    requires OrderedByLastSeen(a, history) && OrderedByLastSeen(b, history) && SameMembers(a, b) && a != []
    requires a[|a| - 1] == b[|b| - 1]
    ensures SameMembers(a[..|a| - 1], b[..|b| - 1])
  {
    hide LastSeen, OrderedByLastSeen;
    LastApart(a, history);
    LastApart(b, history);
    var c, d := a[..|a| - 1], b[..|b| - 1];
    forall k ensures k in c <==> k in d {
      assert k in c <==> k in a && k != a[|a| - 1];
      assert k in d <==> k in b && k != b[|b| - 1];
    }
  }

  // Two orderings of one set of keys by last occurrence are the same.
  lemma {:induction false} OrderIsUnique(a: seq<Key>, b: seq<Key>, history: seq<Key>)
    requires OrderedByLastSeen(a, history) && OrderedByLastSeen(b, history)
    requires SameMembers(a, b)
    ensures a == b
  {
    hide LastSeen;
    if a != [] {
      LastIsShared(a, b, history);
      FrontsShareMembers(a, b, history);
      OrderIsUnique(a[..|a| - 1], b[..|b| - 1], history);
      assert a == a[..|a| - 1] + [a[|a| - 1]] && b == b[..|b| - 1] + [b[|b| - 1]];
    }
  }

  lemma {:induction false} LastSeenApart(history: seq<Key>, k: Key, l: Key)
    requires k in history && l in history && k != l
    ensures LastSeen(history, k) != LastSeen(history, l)
  {
    LastSeenFacts(history, k);
    LastSeenFacts(history, l);
  }

  lemma {:induction false} InsertKeys(sorted: seq<Record>, r: Record)
    requires Distinct(KeysOf(sorted)) && r.key !in KeysOf(sorted)
    ensures forall k :: k in KeysOf(Insert(sorted, r)) <==> k in KeysOf(sorted) || k == r.key
    ensures Distinct(KeysOf(Insert(sorted, r))) && |Insert(sorted, r)| == |sorted| + 1
  {
    if sorted == [] || sorted[|sorted| - 1].lastSeq <= r.lastSeq {
      KeysAre(sorted + [r], KeysOf(sorted) + [r.key]);
      SnocDistinct(KeysOf(sorted), r.key);
    } else {
      var front, last := sorted[..|sorted| - 1], sorted[|sorted| - 1];
      assert KeysOf(sorted) == KeysOf(front) + [last.key];
      DistinctParts(KeysOf(front), [last.key]);
      InsertKeys(front, r);
      var w := Insert(front, r);
      KeysAre(w + [last], KeysOf(w) + [last.key]);
      hide KeysOf, Distinct, Insert;
      assert last.key in [last.key];
      SnocDistinct(KeysOf(w), last.key);
    }
  }

  lemma {:induction false} SnocDistinct(ks: seq<Key>, k: Key)
    requires Distinct(ks) && k !in ks
    ensures Distinct(ks + [k])
  {
  }

  lemma {:induction false} SortKeys(records: seq<Record>)
    requires Distinct(KeysOf(records))
    ensures SameMembers(KeysOf(SortByLastSeen(records)), KeysOf(records)) && Distinct(KeysOf(SortByLastSeen(records)))
  {
    if records != [] {
      var front, last := records[..|records| - 1], records[|records| - 1];
      assert KeysOf(records) == KeysOf(front) + [last.key];
      DistinctParts(KeysOf(front), [last.key]);
      assert last.key in [last.key];
      SortKeys(front);
      InsertKeys(SortByLastSeen(front), last);
    }
  }

  lemma {:induction false} SortedIsRecent(records: seq<Record>, history: seq<Key>, cap: nat)
    requires Holds(records, history, cap)
    ensures KeysOf(SortByLastSeen(records)) == Recent(history, cap)
    ensures forall r :: r in SortByLastSeen(records) ==> r.count == CountSinceEntry(history, cap, r.key)
  {
    var sorted, r := SortByLastSeen(records), Recent(history, cap);
    SortSorts(records);
    SortKeys(records);
    RecentFacts(history, cap);
    hide Recent, SortByLastSeen;
    var ks := KeysOf(sorted);
    forall i | 0 <= i < |sorted| ensures Describes(sorted[i], history, cap) {
      assert sorted[i] in sorted;
      assert sorted[i] in records;
    }
    forall i, j | 0 <= i < j < |ks| ensures LastSeen(history, ks[i]) < LastSeen(history, ks[j]) {
      assert ks[i] in ks && ks[j] in ks;
      assert ks[i] in r && ks[j] in r;
      LastSeenApart(history, ks[i], ks[j]);
    }
    OrderIsUnique(ks, r, history);
  }

  class Log {
    var records: seq<Record>
    var cap: nat
    var seqNumber: nat
    ghost var history: seq<Key>

    ghost predicate Valid()
      reads this
    {
      cap >= 1 && seqNumber == |history| && Holds(records, history, cap)
    }

    constructor (capacity: nat)
      ensures Valid() && history == [] && cap == if capacity >= 1 then capacity else 1
    {
      records, seqNumber, history := [], 0, [];
      cap := if capacity >= 1 then capacity else 1;
    }

    method Find(k: Key) returns (i: nat)
      ensures i <= |records|
      ensures i < |records| ==> records[i].key == k
      ensures i == |records| ==> forall j :: 0 <= j < |records| ==> records[j].key != k
    {
      i := 0;
      while i < |records| && records[i].key != k
        invariant i <= |records|
        invariant forall j :: 0 <= j < i ==> records[j].key != k
      {
        i := i + 1;
      }
    }

    method LeastRecent() returns (least: nat)
      requires records != []
      ensures least < |records|
      ensures forall j :: 0 <= j < |records| ==> records[least].lastSeq <= records[j].lastSeq
    {
      least := 0;
      var i := 1;
      while i < |records|
        invariant least < |records| && 1 <= i <= |records|
        invariant forall j :: 0 <= j < i ==> records[least].lastSeq <= records[j].lastSeq
      {
        if records[i].lastSeq < records[least].lastSeq {
          least := i;
        }
        i := i + 1;
      }
    }

    // A repeat is counted in place.
    method CountRepeat(i: nat, seqNo: nat) returns (count: nat)
      requires i < |records| && Holds(records, history, cap) && cap >= 1 && seqNo == |history| + 1
      modifies this`records
      ensures count == old(records)[i].count + 1
      ensures Holds(records, history + [old(records)[i].key], cap)
    {
      hide Holds;
      count := records[i].count + 1;
      BumpKeeps(records, history, cap, records[i].key, i);
      records := records[i := records[i].(count := count, lastSeq := seqNo)];
    }

    // A new key enters, evicting the one seen longest ago when the log is full.
    method Enter(k: Key, seqNo: nat)
      requires Holds(records, history, cap) && cap >= 1 && seqNo == |history| + 1 && k !in KeysOf(records)
      modifies this`records
      ensures Holds(records, history + [k], cap)
    {
      hide Holds;
      if |records| >= cap {
        var victim := LeastRecent();
        EvictKeeps(records, history, cap, k, victim);
        records := RemoveAt(records, victim);
      } else {
        AppendKeeps(records, history, cap, k);
      }
      records := records + [Record(k, 1, seqNo, seqNo)];
    }

    // Record one occurrence; the result is the key's running count.
    method RecordFailure(k: Key) returns (count: nat)
      requires Valid()
      modifies this
      ensures Valid() && cap == old(cap) && history == old(history) + [k]
      ensures count == CountSinceEntry(history, cap, k)
    {
      hide Holds, CountSinceEntry, LastSeen, Recent;
      seqNumber := seqNumber + 1;
      var i := Find(k);
      CountsNext(records, history, cap, k, i);
      if i < |records| {
        count := CountRepeat(i, seqNumber);
      } else {
        Enter(k, seqNumber);
        count := 1;
      }
      history := history + [k];
    }

    // The records, most recently seen last.
    method Records() returns (sorted: seq<Record>)
      requires Valid()
      ensures KeysOf(sorted) == Recent(history, cap)
      ensures forall r :: r in sorted ==> r.count == CountSinceEntry(history, cap, r.key)
    {
      sorted := SortByLastSeen(records);
      SortedIsRecent(records, history, cap);
    }
  }

  // The running count of the next occurrence.
  lemma {:induction false} CountsNext(records: seq<Record>, history: seq<Key>, cap: nat, k: Key, i: nat)
    requires Holds(records, history, cap) && i <= |records|
    requires i < |records| ==> records[i].key == k
    requires i == |records| ==> forall j :: 0 <= j < |records| ==> records[j].key != k
    ensures CountSinceEntry(history + [k], cap, k) == if i < |records| then records[i].count + 1 else 1
    ensures i == |records| ==> k !in KeysOf(records)
  {
    assert (history + [k])[..|history + [k]| - 1] == history;
    var ks := KeysOf(records);
    if i < |records| {
      assert ks[i] in ks;
    }
  }
}
