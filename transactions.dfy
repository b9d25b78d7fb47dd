/**
 * The transaction record of app.jsx and the pure operations over a ledger
 * (an insertion-ordered sequence of records): the total, the stable sort by
 * time descending, the lookup by the natural key (time, amount), and the
 * array updates that editTransaction and deleteTransaction apply.
 */
module Transactions {
  import opened Wrappers

  /** One recorded income or outcome; `time` is its creation instant in milliseconds. */
  datatype Transaction = Transaction(nature: string, motive: string, amount: int, time: int)

  /** The fields of an edit object; a `None` field is absent from the object. */
  datatype Patch = Patch(nature: Option<string>, motive: Option<string>, amount: Option<int>, time: Option<int>)

  /** Object.assign(target, patch): each field the patch carries replaces the target's. */
  function Merge(target: Transaction, patch: Patch): (r: Transaction)
    ensures patch.nature.Some? ==> r.nature == patch.nature.value
    ensures patch.motive.Some? ==> r.motive == patch.motive.value
    ensures patch.amount.Some? ==> r.amount == patch.amount.value
    ensures patch.time.Some? ==> r.time == patch.time.value
    ensures patch.nature.None? ==> r.nature == target.nature
    ensures patch.motive.None? ==> r.motive == target.motive
    ensures patch.amount.None? ==> r.amount == target.amount
    ensures patch.time.None? ==> r.time == target.time
  {
    Transaction(patch.nature.GetOr(target.nature), patch.motive.GetOr(target.motive),
                patch.amount.GetOr(target.amount), patch.time.GetOr(target.time))
  }

  /** A patch carrying every field (what the edit form sends) fixes the whole result. */
  lemma MergeFullPatch(a: Transaction, b: Transaction, patch: Patch)
    requires patch.nature.Some? && patch.motive.Some? && patch.amount.Some? && patch.time.Some?
    ensures Merge(a, patch) == Merge(b, patch)
    ensures Merge(a, patch) == Transaction(patch.nature.value, patch.motive.value, patch.amount.value, patch.time.value)
  {
  }

  // ---------------------------------------------------------------------------
  // getTotalTransactions
  // ---------------------------------------------------------------------------

  /** array.reduce((acc, val) => acc + val.amount, 0): a left fold over the ledger. */
  function Total(s: seq<Transaction>): (r: int)
    ensures (forall i :: 0 <= i < |s| ==> s[i].amount >= 0) ==> r >= 0
  {
    if |s| == 0 then 0 else Total(s[..|s| - 1]) + s[|s| - 1].amount
  }

  /** The total of a concatenation is the sum of the totals. */
  lemma {:induction false} TotalAppend(a: seq<Transaction>, b: seq<Transaction>)
    ensures Total(a + b) == Total(a) + Total(b)
    decreases |b|
  {
    if |b| == 0 {
      assert a + b == a;
    } else {
      assert (a + b)[..|a + b| - 1] == a + b[..|b| - 1];
      TotalAppend(a, b[..|b| - 1]);
    }
  }

  /** The total of an empty ledger is 0, of a single record its amount. */
  lemma TotalSmall(x: Transaction)
    ensures Total([]) == 0
    ensures Total([x]) == x.amount
  {
    assert [x][..0] == [];
  }

  /** Appending a record adds its amount. */
  lemma TotalSnoc(s: seq<Transaction>, x: Transaction)
    ensures Total(s + [x]) == Total(s) + x.amount
  {
    assert (s + [x])[..|s|] == s;
  }

  /** Prepending a record adds its amount: the fold order does not matter on integers. */
  lemma TotalCons(x: Transaction, s: seq<Transaction>)
    ensures Total([x] + s) == x.amount + Total(s)
  {
    TotalAppend([x], s);
    TotalSmall(x);
  }

  // ---------------------------------------------------------------------------
  // getSortedArray: [...array].sort((a, b) => b.time - a.time)
  // ---------------------------------------------------------------------------

  /** Ordered by time, latest first. */
  ghost predicate SortedByTimeDesc(s: seq<Transaction>) {
    forall i, j :: 0 <= i < j < |s| ==> s[i].time >= s[j].time
  }

  /** The records of `s` created at instant `t`, in their order in `s`. */
  function AtTime(s: seq<Transaction>, t: int): seq<Transaction> {
    if s == [] then []
    else (if s[0].time == t then [s[0]] else []) + AtTime(s[1..], t)
  }

  /**
   * Places `x` before the first record that is not later than it; since `x`
   * came first in the input, this keeps equal-time records in input order.
   */
  function Insert(x: Transaction, s: seq<Transaction>): (r: seq<Transaction>)
    ensures multiset(r) == multiset{x} + multiset(s)
    ensures |r| == |s| + 1
  {
    if s == [] || s[0].time <= x.time then [x] + s
    else
      assert s == [s[0]] + s[1..];
      [s[0]] + Insert(x, s[1..])
  }

  /** The comparator sort of JavaScript, which is stable: an insertion sort. */
  function SortByTimeDesc(s: seq<Transaction>): (r: seq<Transaction>)
    ensures multiset(r) == multiset(s)
    ensures |r| == |s|
  {
    if s == [] then []
    else
      assert s == [s[0]] + s[1..];
      Insert(s[0], SortByTimeDesc(s[1..]))
  }

  /** Every record of Insert(x, s) is no later than a bound that `x` and all of `s` respect. */
  lemma {:induction false} InsertBounded(x: Transaction, s: seq<Transaction>, bound: int)
    requires x.time <= bound
    requires forall i :: 0 <= i < |s| ==> s[i].time <= bound
    ensures forall i :: 0 <= i < |Insert(x, s)| ==> Insert(x, s)[i].time <= bound
  {
    if s == [] || s[0].time <= x.time {
    } else {
      InsertBounded(x, s[1..], bound);
    }
  }

  lemma {:induction false} InsertSorted(x: Transaction, s: seq<Transaction>)
    requires SortedByTimeDesc(s)
    ensures SortedByTimeDesc(Insert(x, s))
  {
    if s == [] || s[0].time <= x.time {
    } else {
      InsertSorted(x, s[1..]);
      InsertBounded(x, s[1..], s[0].time);
    }
  }

  /** The records at one instant of a concatenation are those of each part, in order. */
  lemma {:induction false} AtTimeAppend(a: seq<Transaction>, b: seq<Transaction>, t: int)
    ensures AtTime(a + b, t) == AtTime(a, t) + AtTime(b, t)
  {
    if a == [] {
      assert a + b == b;
    } else {
      AtTimeAppend(a[1..], b, t);
      AtTimeAppendStep(a, b, t);
    }
  }

  /** One step of AtTimeAppend: the head of `a` heads both sides. */
  lemma AtTimeAppendStep(a: seq<Transaction>, b: seq<Transaction>, t: int)
    requires a != []
    requires AtTime(a[1..] + b, t) == AtTime(a[1..], t) + AtTime(b, t)
    ensures AtTime(a + b, t) == AtTime(a, t) + AtTime(b, t)
  {
    AtTimeConsAppend(a, b, t);
    Reassociate(if a[0].time == t then [a[0]] else [], AtTime(a[1..], t), AtTime(b, t));
  }

  /** Both `a` and `a + b` start with the head of `a`. */
  lemma AtTimeConsAppend(a: seq<Transaction>, b: seq<Transaction>, t: int)
    requires a != []
    ensures AtTime(a + b, t) == (if a[0].time == t then [a[0]] else []) + AtTime(a[1..] + b, t)
    ensures AtTime(a, t) == (if a[0].time == t then [a[0]] else []) + AtTime(a[1..], t)
  {
    assert [a[0]] + (a[1..] + b) == a + b;
    AtTimeCons(a[0], a[1..] + b, t);
  }

  /** Concatenation is associative. */
  lemma Reassociate(x: seq<Transaction>, y: seq<Transaction>, z: seq<Transaction>)
    ensures x + (y + z) == (x + y) + z
  {
  }

  /** The records at one instant of `[y] + s`: `y` if it is at that instant, then those of `s`. */
  lemma AtTimeCons(y: Transaction, s: seq<Transaction>, t: int)
    ensures AtTime([y] + s, t) == (if y.time == t then [y] else []) + AtTime(s, t)
  {
    assert ([y] + s)[0] == y;
    assert ([y] + s)[1..] == s;
  }

  /**
   * A record `y` later than `x` placed before `rest`: at any instant, the
   * record of `x` (if any) still comes before the records of `y` and `tail`.
   */
  lemma AtTimePassLater(x: Transaction, y: Transaction, rest: seq<Transaction>, tail: seq<Transaction>, t: int)
    requires y.time > x.time
    requires AtTime(rest, t) == (if x.time == t then [x] else []) + tail
    ensures AtTime([y] + rest, t) == (if x.time == t then [x] else []) + ((if y.time == t then [y] else []) + tail)
  {
    AtTimeCons(y, rest, t);
  }

  /** One step of InsertAtTime: `x` passes a later head record. */
  lemma InsertAtTimeStep(x: Transaction, s: seq<Transaction>, t: int)
    requires s != [] && s[0].time > x.time
    requires AtTime(Insert(x, s[1..]), t) == (if x.time == t then [x] else []) + AtTime(s[1..], t)
    ensures AtTime(Insert(x, s), t) == (if x.time == t then [x] else []) + AtTime(s, t)
  {
    AtTimePassLater(x, s[0], Insert(x, s[1..]), AtTime(s[1..], t), t);
  }

  lemma {:induction false} InsertAtTime(x: Transaction, s: seq<Transaction>, t: int)
    ensures AtTime(Insert(x, s), t) == (if x.time == t then [x] else []) + AtTime(s, t)
  {
    if s == [] || s[0].time <= x.time {
      AtTimeCons(x, s, t);
    } else {
      InsertAtTime(x, s[1..], t);
      InsertAtTimeStep(x, s, t);
    }
  }

  lemma {:induction false} InsertTotal(x: Transaction, s: seq<Transaction>)
    ensures Total(Insert(x, s)) == x.amount + Total(s)
  {
    if s == [] || s[0].time <= x.time {
      TotalCons(x, s);
    } else {
      InsertTotal(x, s[1..]);
      TotalCons(s[0], Insert(x, s[1..]));
      TotalCons(s[0], s[1..]);
      assert s == [s[0]] + s[1..];
    }
  }

  /**
   * The sorted view is a permutation of the input, latest first, and keeps
   * the records of every instant in their input order (stability).
   */
  lemma {:induction false} SortSpec(s: seq<Transaction>)
    ensures multiset(SortByTimeDesc(s)) == multiset(s)
    ensures |SortByTimeDesc(s)| == |s|
    ensures SortedByTimeDesc(SortByTimeDesc(s))
    ensures forall t :: AtTime(SortByTimeDesc(s), t) == AtTime(s, t)
  {
    SortSorted(s);
    forall t ensures AtTime(SortByTimeDesc(s), t) == AtTime(s, t) {
      SortStable(s, t);
    }
  }

  lemma {:induction false} SortSorted(s: seq<Transaction>)
    ensures SortedByTimeDesc(SortByTimeDesc(s))
  {
    if s != [] {
      SortSorted(s[1..]);
      InsertSorted(s[0], SortByTimeDesc(s[1..]));
    }
  }

  lemma {:induction false} SortStable(s: seq<Transaction>, t: int)
    ensures AtTime(SortByTimeDesc(s), t) == AtTime(s, t)
  {
    if s != [] {
      SortStable(s[1..], t);
      InsertAtTime(s[0], SortByTimeDesc(s[1..]), t);
      AtTimeCons(s[0], s[1..], t);
      assert [s[0]] + s[1..] == s;
    }
  }

  /** A ledger already ordered latest first is left as it is. */
  lemma {:induction false} SortFixesSorted(s: seq<Transaction>)
    requires SortedByTimeDesc(s)
    ensures SortByTimeDesc(s) == s
  {
    if s != [] {
      SortFixesSorted(s[1..]);
      assert s == [s[0]] + s[1..];
    }
  }

  /** Sorting twice is sorting once. */
  lemma SortIdempotent(s: seq<Transaction>)
    ensures SortByTimeDesc(SortByTimeDesc(s)) == SortByTimeDesc(s)
  {
    SortSpec(s);
    SortFixesSorted(SortByTimeDesc(s));
  }

  /** Sorting does not change the total. */
  lemma {:induction false} SortTotal(s: seq<Transaction>)
    ensures Total(SortByTimeDesc(s)) == Total(s)
  {
    if s != [] {
      SortTotal(s[1..]);
      InsertTotal(s[0], SortByTimeDesc(s[1..]));
      TotalCons(s[0], s[1..]);
      assert s == [s[0]] + s[1..];
    }
  }

  /** Two records at 2000 and 1000: the one at 2000 comes first, whatever the input order. */
  lemma SortTwoExample(a: Transaction, b: Transaction)
    requires a.time == 1000 && b.time == 2000
    ensures SortByTimeDesc([a, b]) == [b, a]
    ensures SortByTimeDesc([b, a]) == [b, a]
  {
    assert [a, b][1..] == [b];
    assert [b][1..] == [];
    assert SortByTimeDesc([b]) == [b];
    assert Insert(a, [b]) == [b] + Insert(a, []);
    assert [b, a][1..] == [a];
    assert [a][1..] == [];
    assert SortByTimeDesc([a]) == [a];
    assert Insert(b, [a]) == [b] + [a];
  }

  // ---------------------------------------------------------------------------
  // findIndex on the natural key, and the two array updates
  // ---------------------------------------------------------------------------

  /** The findIndex callback: the record's (time, amount) equals the given pair. */
  predicate Matches(x: Transaction, time: int, amount: int) {
    x.time == time && x.amount == amount
  }

  /** Array.prototype.findIndex: the first matching position, or -1 when none matches. */
  function FindIndex(s: seq<Transaction>, time: int, amount: int): (r: int)
    ensures -1 <= r < |s|
    ensures r == -1 <==> forall j :: 0 <= j < |s| ==> !Matches(s[j], time, amount)
    ensures r >= 0 ==> Matches(s[r], time, amount)
    ensures r >= 0 ==> forall j :: 0 <= j < r ==> !Matches(s[j], time, amount)
  {
    if s == [] then -1
    else if Matches(s[0], time, amount) then 0
    else
      var k := FindIndex(s[1..], time, amount);
      if k == -1 then -1 else k + 1
  }

  /** `i` is the first position of `s` whose record has the key (time, amount). */
  ghost predicate FirstMatch(s: seq<Transaction>, time: int, amount: int, i: int) {
    0 <= i < |s| && Matches(s[i], time, amount)
    && forall j :: 0 <= j < i ==> !Matches(s[j], time, amount)
  }

  /**
   * `saved[i] = v` on a JavaScript array: an index inside the array replaces
   * that element; a negative index sets an ordinary property and leaves the
   * elements (and what JSON.stringify writes) as they were.
   */
  function AssignAt(s: seq<Transaction>, i: int, v: Transaction): (r: seq<Transaction>)
    requires i < |s|
    ensures |r| == |s|
    ensures i < 0 ==> r == s
    ensures 0 <= i ==> r[i] == v
    ensures forall j :: 0 <= j < |s| && j != i ==> r[j] == s[j]
  {
    if 0 <= i then s[i := v] else s
  }

  /** Where `splice(start, 1)` starts: a negative start counts back from the end, clamped to 0. */
  function SpliceStart(len: nat, start: int): (k: nat)
    ensures k <= len
    ensures 0 <= start <= len ==> k == start
    ensures start < 0 && len + start >= 0 ==> k == len + start
  {
    if start < 0 then (if len + start < 0 then 0 else len + start)
    else if start > len then len
    else start
  }

  /** `splice(start, 1)`: removes the element at the resolved start, if there is one. */
  function SpliceOne(s: seq<Transaction>, start: int): (r: seq<Transaction>)
    ensures |r| == if s != [] && start < |s| then |s| - 1 else |s|
    ensures start >= |s| ==> r == s
    ensures multiset(r) <= multiset(s)
    ensures s != [] && 0 <= start < |s| ==> r == s[..start] + s[start + 1..]
    ensures s != [] && -|s| <= start < 0 ==> r == s[..|s| + start] + s[|s| + start + 1..]
  {
    var k := SpliceStart(|s|, start);
    if k < |s| then
      assert s == s[..k] + [s[k]] + s[k + 1..];
      s[..k] + s[k + 1..]
    else s
  }

  /**
   * The array editTransaction persists: the first record keyed like
   * `newT` is replaced by Object.assign(newT, toEdit). The guard
   * `index !== null` holds for every number, so a miss assigns `saved[-1]`.
   */
  function EditLedger(saved: seq<Transaction>, newT: Transaction, toEdit: Patch): (r: seq<Transaction>)
    ensures |r| == |saved|
    ensures forall j :: 0 <= j < |saved| ==> r[j] == saved[j] || r[j] == Merge(newT, toEdit)
  {
    var index := FindIndex(saved, newT.time, newT.amount);
    AssignAt(saved, index, Merge(newT, toEdit))
  }

  /**
   * The array deleteTransaction persists: `saved.splice(index, 1)` for the
   * first record keyed like `t`, and, since the guard `index !== null` holds
   * for -1 too, `saved.splice(-1, 1)` on a miss.
   */
  function DeleteLedger(saved: seq<Transaction>, t: Transaction): (r: seq<Transaction>)
    ensures |r| == if saved == [] then 0 else |saved| - 1
    ensures multiset(r) <= multiset(saved)
  {
    SpliceOne(saved, FindIndex(saved, t.time, t.amount))
  }

  /** Edit with a match: only the first matching record changes, to the merged record. */
  lemma EditFirstMatch(saved: seq<Transaction>, newT: Transaction, toEdit: Patch, i: int)
    requires FirstMatch(saved, newT.time, newT.amount, i)
    ensures EditLedger(saved, newT, toEdit) == saved[i := Merge(newT, toEdit)]
    ensures |EditLedger(saved, newT, toEdit)| == |saved|
    ensures forall j :: 0 <= j < |saved| && j != i ==> EditLedger(saved, newT, toEdit)[j] == saved[j]
  {
  }

  /** Edit without a match: the element sequence is unchanged. */
  lemma EditMiss(saved: seq<Transaction>, newT: Transaction, toEdit: Patch)
    requires forall j :: 0 <= j < |saved| ==> !Matches(saved[j], newT.time, newT.amount)
    ensures EditLedger(saved, newT, toEdit) == saved
  {
  }

  /** Delete with a match: exactly the first matching record is removed, the rest keep their order. */
  lemma DeleteFirstMatch(saved: seq<Transaction>, t: Transaction, i: int)
    requires FirstMatch(saved, t.time, t.amount, i)
    ensures DeleteLedger(saved, t) == saved[..i] + saved[i + 1..]
    ensures |DeleteLedger(saved, t)| == |saved| - 1
  {
  }

  /** Delete without a match drops the last record (splice(-1, 1)); an empty ledger stays empty. */
  lemma DeleteMiss(saved: seq<Transaction>, t: Transaction)
    requires forall j :: 0 <= j < |saved| ==> !Matches(saved[j], t.time, t.amount)
    ensures saved != [] ==> DeleteLedger(saved, t) == saved[..|saved| - 1]
    ensures saved == [] ==> DeleteLedger(saved, t) == []
  {
    if saved != [] {
      assert saved[|saved|..] == [];
    }
  }

  /** A concrete instance: deleting an absent record from [a, b] leaves [a]. */
  lemma DeleteMissExample(a: Transaction, b: Transaction, t: Transaction)
    requires a.time == 1000 && b.time == 2000 && t.time == 3000
    ensures DeleteLedger([a, b], t) == [a]
  {
    DeleteMiss([a, b], t);
  }
}
