/**
 * The text a maib callback is signed over. The `result` object of the
 * notification is sorted by key at every level (`sortByKeyRecursive`), the
 * merchant's signature key is pushed as the last top-level element, and the
 * tree is flattened depth-first with every piece followed by ':' and the
 * final ':' cut off (`implodeRecursive`). The digest of that text is left to
 * the caller.
 */
module Signature {
  import opened PhpValue

  /** Byte-wise order of keys, the comparison `ksort($a, SORT_STRING)` uses. */
  predicate Less(a: string, b: string)
  {
    if a == [] then b != []
    else if b == [] then false
    else a[0] < b[0] || (a[0] == b[0] && Less(a[1..], b[1..]))
  }

  lemma {:induction false} LessIrreflexive(a: string)
    ensures !Less(a, a)
  {
    if a != [] {
      LessIrreflexive(a[1..]);
    }
  }

  lemma {:induction false} LessAsymmetric(a: string, b: string)
    ensures !(Less(a, b) && Less(b, a))
  {
    if a != [] && b != [] && a[0] == b[0] {
      LessAsymmetric(a[1..], b[1..]);
    }
  }

  lemma {:induction false} LessTransitive(a: string, b: string, c: string)
    requires Less(a, b) && Less(b, c)
    ensures Less(a, c)
  {
    if a != [] && a[0] == b[0] && b[0] == c[0] {
      LessTransitive(a[1..], b[1..], c[1..]);
    }
  }

  lemma {:induction false} LessTotal(a: string, b: string)
    requires a != b
    ensures Less(a, b) || Less(b, a)
  {
    if a != [] && b != [] && a[0] == b[0] {
      assert a == [a[0]] + a[1..] && b == [b[0]] + b[1..];
      LessTotal(a[1..], b[1..]);
    }
  }

  /** Inserts `e` before the first entry whose key is not below `e`'s. */
  function Insert(e: Entry, s: seq<Entry>): (r: seq<Entry>)
    ensures multiset(r) == multiset(s) + multiset{e}
  {
    if s == [] || !Less(s[0].key, e.key) then [e] + s
    else
      assert s == [s[0]] + s[1..];
      [s[0]] + Insert(e, s[1..])
  }

  /** One level of `ksort($array, SORT_STRING)`. */
  function SortEntries(es: seq<Entry>): (r: seq<Entry>)
    ensures multiset(r) == multiset(es)
    ensures |r| == |es|
  {
    if es == [] then []
    else
      assert es == [es[0]] + es[1..];
      Insert(es[0], SortEntries(es[1..]))
  }

  /** Keys strictly ascending in the `SORT_STRING` order. */
  ghost predicate KeysAscending(s: seq<Entry>)
  {
    forall i, j :: 0 <= i < j < |s| ==> Less(s[i].key, s[j].key)
  }

  lemma {:induction false} InsertAscending(e: Entry, s: seq<Entry>)
    requires KeysAscending(s)
    requires forall x :: x in s ==> x.key != e.key
    ensures KeysAscending(Insert(e, s))
  {
    if s == [] || !Less(s[0].key, e.key) {
      if s != [] {
        LessTotal(e.key, s[0].key);
        forall j | 1 <= j < |s|
          ensures Less(e.key, s[j].key)
        {
          LessTransitive(e.key, s[0].key, s[j].key);
        }
      }
    } else {
      var t := s[1..];
      InsertAscending(e, t);
      var r := Insert(e, t);
      forall j | 0 <= j < |r|
        ensures Less(s[0].key, r[j].key)
      {
        assert r[j] in multiset(r);
        if r[j] != e {
          assert r[j] in multiset(t);
          var k :| 0 <= k < |t| && t[k] == r[j];
          assert s[k + 1] == r[j];
        }
      }
    }
  }

  /** With distinct keys, one `ksort` level leaves the keys strictly ascending. */
  lemma {:induction false} SortEntriesAscending(es: seq<Entry>)
    requires UniqueKeys(es)
    ensures KeysAscending(SortEntries(es))
  {
    if es != [] {
      var t := es[1..];
      SortEntriesAscending(t);
      var sorted := SortEntries(t);
      forall x | x in sorted
        ensures x.key != es[0].key
      {
        assert x in multiset(t);
        var k :| 0 <= k < |t| && t[k] == x;
        assert es[k + 1] == x;
      }
      InsertAscending(es[0], sorted);
    }
  }

  lemma FirstIn(s: seq<Entry>)
    requires s != []
    ensures s[0] in s
  {
  }

  /** Two key-ascending sequences holding the same entries are the same sequence. */
  lemma {:induction false} AscendingUnique(a: seq<Entry>, b: seq<Entry>)
    requires KeysAscending(a) && KeysAscending(b)
    requires forall x :: x in a <==> x in b
    ensures a == b
  {
    if a == [] || b == [] {
      if a != [] {
        FirstIn(a);
        assert false;
      } else if b != [] {
        FirstIn(b);
        assert false;
      }
    } else {
      assert a[0] in b;
      var k :| 0 <= k < |b| && b[k] == a[0];
      assert b[0] in a;
      var m :| 0 <= m < |a| && a[m] == b[0];
      if k > 0 && m > 0 {
        LessAsymmetric(a[0].key, b[0].key);
      } else if k > 0 {
        LessIrreflexive(b[0].key);
      } else if m > 0 {
        LessIrreflexive(a[0].key);
      }
      assert a[0] == b[0];
      forall x
        ensures x in a[1..] <==> x in b[1..]
      {
        if x in a[1..] {
          var i :| 1 <= i < |a| && a[i] == x;
          LessIrreflexive(a[0].key);
          assert x != b[0];
          assert x in a;
          assert x in b;
          var j :| 0 <= j < |b| && b[j] == x;
          assert b[1..][j - 1] == x;
        }
        if x in b[1..] {
          var i :| 1 <= i < |b| && b[i] == x;
          LessIrreflexive(b[0].key);
          assert x != a[0];
          assert x in b;
          assert x in a;
          var j :| 0 <= j < |a| && a[j] == x;
          assert a[1..][j - 1] == x;
        }
      }
      AscendingUnique(a[1..], b[1..]);
      assert a == [a[0]] + a[1..] && b == [b[0]] + b[1..];
    }
  }

  /**
   * `sortByKeyRecursive`: sort this level by key, then replace every array
   * child by its own sorted form; scalars are kept as they are.
   */
  function SortByKeyRecursive(v: Value): (r: Value)
    ensures v.VArray? ==> r.VArray? && |r.entries| == |v.entries|
    ensures !v.VArray? ==> r == v
    decreases v
  {
    match v
    case VArray(es) =>
      var s := SortEntries(es);
      VArray(seq(|s|, i requires 0 <= i < |s| =>
        assert s[i] in multiset(es);
        Entry(s[i].key, SortByKeyRecursive(s[i].val))))
    case _ => v
  }

  /** The text one element contributes: arrays are imploded, scalars cast with `(string)`. */
  function Flat(v: Value): string
    decreases v, 1
  {
    match v
    case VArray(es) => Join(Pieces(es))
    case _ => StrCast(v)
  }

  function Pieces(es: seq<Entry>): (ps: seq<string>)
    ensures |ps| == |es|
    ensures forall i :: 0 <= i < |es| ==> ps[i] == Flat(es[i].val)
    decreases es, 0
  {
    if es == [] then [] else [Flat(es[0].val)] + Pieces(es[1..])
  }

  /** The pieces with a ':' between neighbours. */
  function Join(ps: seq<string>): string
  {
    if ps == [] then ""
    else if |ps| == 1 then ps[0]
    else Join(ps[..|ps| - 1]) + ":" + ps[|ps| - 1]
  }

  /** Every piece followed by ':', the accumulator of `implodeRecursive`'s loop. */
  function Terminated(ps: seq<string>): (t: string)
    ensures ps != [] ==> |t| >= 1
  {
    if ps == [] then "" else Terminated(ps[..|ps| - 1]) + ps[|ps| - 1] + ":"
  }

  lemma TerminatedSnoc(ps: seq<string>, p: string)
    ensures Terminated(ps + [p]) == Terminated(ps) + p + ":"
  {
    assert (ps + [p])[..|ps|] == ps;
  }

  lemma {:induction false} TerminatedIsJoin(ps: seq<string>)
    requires ps != []
    ensures Terminated(ps) == Join(ps) + ":"
  {
    if |ps| > 1 {
      TerminatedIsJoin(ps[..|ps| - 1]);
    }
  }

  /**
   * `implodeRecursive(':', $array)` as the source computes it: append each
   * piece and a separator, then drop the last character.
   */
  method ImplodeRecursive(es: seq<Entry>) returns (r: string)
    ensures r == Flat(VArray(es))
    decreases es
  {
    ghost var done: seq<string> := [];
    var acc := "";
    var i := 0;
    while i < |es|
      invariant 0 <= i <= |es| && |done| == i
      invariant forall k :: 0 <= k < i ==> done[k] == Flat(es[k].val)
      invariant acc == Terminated(done)
    {
      var piece;
      if es[i].val.VArray? {
        piece := ImplodeRecursive(es[i].val.entries);
      } else {
        piece := StrCast(es[i].val);
      }
      TerminatedSnoc(done, piece);
      acc := acc + piece + ":";
      done := done + [piece];
      i := i + 1;
    }
    assert done == Pieces(es);
    if es == [] {
      r := "";
    } else {
      TerminatedIsJoin(done);
      r := acc[..|acc| - 1];
      assert r == Join(done);
    }
  }

  /** Whether `k` is a PHP integer key: canonical decimal text of a natural number. */
  predicate IsIndexKey(k: string)
  {
    k != [] && (forall i :: 0 <= i < |k| ==> '0' <= k[i] <= '9') && (k[0] != '0' || |k| == 1)
  }

  /** The key `$array[] = ...` uses: one past the largest integer key, 0 when there is none. */
  function NextIndex(es: seq<Entry>): nat
  {
    if es == [] then 0
    else
      var rest := NextIndex(es[..|es| - 1]);
      var k := es[|es| - 1].key;
      var here: nat := if IsIndexKey(k) then DigitsValue(k) + 1 else 0;
      if here > rest then here else rest
  }

  /** `$array[] = $v`. */
  function Push(es: seq<Entry>, v: Value): seq<Entry>
  {
    es + [Entry(NatToString(NextIndex(es)), v)]
  }

  /**
   * The string whose SHA-256 digest, base64-encoded, a callback's
   * `signature` must equal. `result` is an array: a scalar `result` makes
   * `sortByKeyRecursive`'s `array` parameter throw.
   */
  function SignedText(result: seq<Entry>, key: string): string
  {
    var sorted := SortByKeyRecursive(VArray(result));
    Flat(VArray(Push(sorted.entries, VStr(key))))
  }

  lemma PiecesSnoc(es: seq<Entry>, e: Entry)
    ensures Pieces(es + [e]) == Pieces(es) + [Flat(e.val)]
  {
    var l := Pieces(es + [e]);
    var r := Pieces(es) + [Flat(e.val)];
    assert |l| == |r|;
    forall i | 0 <= i < |l|
      ensures l[i] == r[i]
    {
      assert (es + [e])[i] == if i < |es| then es[i] else e;
    }
  }

  lemma {:induction false} JoinSnoc(ps: seq<string>, p: string)
    ensures Join(ps + [p]) == if ps == [] then p else Join(ps) + ":" + p
  {
    assert (ps + [p])[..|ps|] == ps;
  }

  /**
   * The signature key is the last piece of the signed text: it follows the
   * flattened sorted result, after a ':' unless the result is empty.
   */
  lemma SignedTextEndsWithKey(result: seq<Entry>, key: string)
    ensures SignedText(result, key) ==
      (if result == [] then key else Flat(SortByKeyRecursive(VArray(result))) + ":" + key)
  {
    var sorted := SortByKeyRecursive(VArray(result)).entries;
    PiecesSnoc(sorted, Entry(NatToString(NextIndex(sorted)), VStr(key)));
    JoinSnoc(Pieces(sorted), key);
  }

  /**
   * `a` and `b` hold the same keys with the same values at every level,
   * possibly in a different order (the same JSON object serialised twice).
   */
  ghost predicate SameTree(a: Value, b: Value)
    decreases a
  {
    match a
    case VArray(es) =>
      b.VArray? && UniqueKeys(es) && UniqueKeys(b.entries)
      && (forall j :: 0 <= j < |b.entries| ==> IndexOf(es, b.entries[j].key) < |es|)
      && (forall i :: 0 <= i < |es| ==>
            IndexOf(b.entries, es[i].key) < |b.entries|
            && SameTree(es[i].val, b.entries[IndexOf(b.entries, es[i].key)].val))
    case _ => a == b
  }

  lemma IndexOfUnique(es: seq<Entry>, q: nat)
    requires UniqueKeys(es) && q < |es|
    ensures IndexOf(es, es[q].key) == q
  {
  }

  /** An entry of the sorted array comes from an entry of the input with the same key. */
  lemma SortedEntryOrigin(es: seq<Entry>, i: nat) returns (p: nat)
    requires i < |SortEntries(es)|
    ensures p < |es| && es[p] == SortEntries(es)[i]
  {
    assert SortEntries(es)[i] in multiset(es);
    p :| p < |es| && es[p] == SortEntries(es)[i];
  }

  /** An entry of the input lands somewhere in the sorted array. */
  lemma SortedEntryPlace(es: seq<Entry>, p: nat) returns (i: nat)
    requires p < |es|
    ensures i < |SortEntries(es)| && SortEntries(es)[i] == es[p]
  {
    assert es[p] in multiset(SortEntries(es));
    i :| i < |SortEntries(es)| && SortEntries(es)[i] == es[p];
  }

  /** Each key of `sortByKeyRecursive`'s output carries the sorted form of its input value. */
  lemma SortedChild(v: Value, i: nat)
    requires v.VArray? && i < |v.entries|
    ensures SortByKeyRecursive(v).entries[i]
      == Entry(SortEntries(v.entries)[i].key, SortByKeyRecursive(SortEntries(v.entries)[i].val))
  {
  }

  /**
   * The sorted tree does not depend on the order in which keys arrive:
   * two results that differ only in key order sort to the same tree.
   */
  lemma {:induction false} SortByKeyRecursiveCanonical(a: Value, b: Value)
    requires SameTree(a, b)
    ensures SortByKeyRecursive(a) == SortByKeyRecursive(b)
    decreases a, 1
  {
    if a.VArray? {
      var c1, c2 := SortByKeyRecursive(a).entries, SortByKeyRecursive(b).entries;
      SortByKeyRecursiveAscending(a);
      SortByKeyRecursiveAscending(b);
      forall x | x in c1
        ensures x in c2
      {
        var i :| 0 <= i < |c1| && c1[i] == x;
        var r := SortedEntryMatched(a, b, i);
      }
      forall y | y in c2
        ensures y in c1
      {
        var r :| 0 <= r < |c2| && c2[r] == y;
        var i := SortedEntryMatchedBack(a, b, r);
      }
      AscendingUnique(c1, c2);
    }
  }

  /** An entry of `a`'s sorted form also occurs in `b`'s sorted form. */
  lemma {:induction false} SortedEntryMatched(a: Value, b: Value, i: nat) returns (r: nat)
    requires SameTree(a, b) && a.VArray? && i < |a.entries|
    ensures r < |SortByKeyRecursive(b).entries| && SortByKeyRecursive(b).entries[r] == SortByKeyRecursive(a).entries[i]
    decreases a, 0
  {
    var es1, es2 := a.entries, b.entries;
    SortedChild(a, i);
    var p := SortedEntryOrigin(es1, i);
    var q := IndexOf(es2, es1[p].key);
    SortByKeyRecursiveCanonical(es1[p].val, es2[q].val);
    r := SortedEntryPlace(es2, q);
    SortedChild(b, r);
  }

  /** An entry of `b`'s sorted form also occurs in `a`'s sorted form. */
  lemma {:induction false} SortedEntryMatchedBack(a: Value, b: Value, r: nat) returns (i: nat)
    requires SameTree(a, b) && a.VArray? && r < |b.entries|
    ensures i < |SortByKeyRecursive(a).entries| && SortByKeyRecursive(a).entries[i] == SortByKeyRecursive(b).entries[r]
    decreases a, 0
  {
    var es1, es2 := a.entries, b.entries;
    SortedChild(b, r);
    var q := SortedEntryOrigin(es2, r);
    var p := IndexOf(es1, es2[q].key);
    IndexOfUnique(es2, q);
    SortByKeyRecursiveCanonical(es1[p].val, es2[q].val);
    i := SortedEntryPlace(es1, p);
    SortedChild(a, i);
  }

  /** With distinct keys, the top level of `sortByKeyRecursive`'s output is strictly key-ascending. */
  lemma SortByKeyRecursiveAscending(v: Value)
    requires v.VArray? && UniqueKeys(v.entries)
    ensures KeysAscending(SortByKeyRecursive(v).entries)
  {
    SortEntriesAscending(v.entries);
    var c := SortByKeyRecursive(v).entries;
    forall i, j | 0 <= i < j < |c|
      ensures Less(c[i].key, c[j].key)
    {
      SortedChild(v, i);
      SortedChild(v, j);
    }
  }

  /**
   * The signed text of a callback does not depend on the order in which the
   * keys of its `result` arrive.
   */
  lemma SignedTextOrderIndependent(r1: seq<Entry>, r2: seq<Entry>, key: string)
    requires SameTree(VArray(r1), VArray(r2))
    ensures SignedText(r1, key) == SignedText(r2, key)
  {
    SortByKeyRecursiveCanonical(VArray(r1), VArray(r2));
  }

  /** A JSON list decoded by PHP: the keys are 0, 1, 2, ... in order. */
  ghost predicate IsList(es: seq<Entry>)
  {
    forall i :: 0 <= i < |es| ==> es[i].key == NatToString(i)
  }

  lemma ListKeysUnique(es: seq<Entry>)
    requires IsList(es)
    ensures UniqueKeys(es)
  {
    forall i, j | 0 <= i < j < |es|
      ensures es[i].key != es[j].key
    {
      StrToIntOfNatToString(i);
      StrToIntOfNatToString(j);
    }
  }

  /** `ksort(..., SORT_STRING)` keeps a list of at most ten elements in its order. */
  lemma ShortListKept(es: seq<Entry>)
    requires IsList(es) && |es| <= 10
    ensures SortEntries(es) == es
  {
    ListKeysUnique(es);
    SortEntriesAscending(es);
    forall i, j | 0 <= i < j < |es|
      ensures Less(es[i].key, es[j].key)
    {
      assert es[i].key == [DigitChar(i)] && es[j].key == [DigitChar(j)];
    }
    forall x
      ensures x in SortEntries(es) <==> x in es
    {
      assert x in SortEntries(es) <==> x in multiset(SortEntries(es));
    }
    AscendingUnique(SortEntries(es), es);
  }

  /**
   * A list of more than ten elements is reordered: key "10" sorts before
   * key "2", so the signed text does not follow the list order.
   */
  lemma LongListReordered(es: seq<Entry>)
    requires IsList(es) && |es| > 10
    ensures SortEntries(es) != es
  {
    ListKeysUnique(es);
    SortEntriesAscending(es);
    assert es[2].key == "2" && es[10].key == "10";
    assert Less("10", "2");
    LessAsymmetric("2", "10");
    assert !KeysAscending(es);
  }

  /** The scalar leaves of a tree, depth-first, each cast with `(string)`. */
  function Leaves(v: Value): seq<string>
    decreases v, 1
  {
    match v
    case VArray(es) => LeavesOf(es)
    case _ => [StrCast(v)]
  }

  function LeavesOf(es: seq<Entry>): seq<string>
    decreases es, 0
  {
    if es == [] then [] else Leaves(es[0].val) + LeavesOf(es[1..])
  }

  /** No array in the tree, the top one included, is empty. */
  ghost predicate NoEmptyArray(v: Value)
    decreases v
  {
    match v
    case VArray(es) => es != [] && forall i :: 0 <= i < |es| ==> NoEmptyArray(es[i].val)
    case _ => true
  }

  lemma {:induction false} JoinAppend(p: seq<string>, q: seq<string>)
    requires p != [] && q != []
    ensures Join(p + q) == Join(p) + ":" + Join(q)
    decreases |q|
  {
    var x := q[|q| - 1];
    var init := q[..|q| - 1];
    assert q == init + [x];
    assert p + q == (p + init) + [x];
    if init == [] {
      JoinSnoc(p, x);
    } else {
      calc {
        Join(p + q);
        == { JoinSnoc(p + init, x); }
        Join(p + init) + ":" + x;
        == { JoinAppend(p, init); }
        (Join(p) + ":" + Join(init)) + ":" + x;
        == Join(p) + ":" + (Join(init) + ":" + x);
        == { JoinSnoc(init, x); }
        Join(p) + ":" + Join(q);
      }
    }
  }

  lemma {:induction false} JoinCons(x: string, rest: seq<string>)
    ensures Join([x] + rest) == if rest == [] then x else x + ":" + Join(rest)
  {
    if rest != [] {
      JoinAppend([x], rest);
    }
  }

  /**
   * Without empty nested arrays, the flattened text is the depth-first list
   * of leaves joined by ':'. An empty nested array contributes an empty
   * piece instead, so two separators meet.
   */
  lemma {:induction false} FlatIsJoinedLeaves(v: Value)
    requires NoEmptyArray(v)
    ensures Leaves(v) != []
    ensures Flat(v) == Join(Leaves(v))
    decreases v, 1
  {
    if v.VArray? {
      FlatOfEntries(v.entries);
    }
  }

  lemma {:induction false} FlatOfEntries(es: seq<Entry>)
    requires es != [] && forall i :: 0 <= i < |es| ==> NoEmptyArray(es[i].val)
    ensures LeavesOf(es) != []
    ensures Join(Pieces(es)) == Join(LeavesOf(es))
    decreases es, 0
  {
    FlatIsJoinedLeaves(es[0].val);
    var rest := es[1..];
    assert Pieces(es) == [Flat(es[0].val)] + Pieces(rest);
    JoinCons(Flat(es[0].val), Pieces(rest));
    assert LeavesOf(es) == Leaves(es[0].val) + LeavesOf(rest);
    if rest != [] {
      FlatOfEntries(rest);
      JoinAppend(Leaves(es[0].val), LeavesOf(rest));
    } else {
      assert LeavesOf(es) == Leaves(es[0].val);
    }
  }
}
