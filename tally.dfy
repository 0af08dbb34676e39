/**
 * A JavaScript object used as a counter (`obj[key] = (obj[key] || 0) + 1`),
 * as the sequence of its properties in insertion order.
 */
module Tally {

  datatype Bucket = Bucket(key: string, count: nat)

  type Counter = seq<Bucket>

  function Keys(t: Counter): seq<string> {
    if t == [] then [] else [t[0].key] + Keys(t[1..])
  }

  predicate DistinctKeys(t: Counter) {
    forall i, j | 0 <= i < j < |t| :: t[i].key != t[j].key
  }

  /** The sum of all counts. */
  function Total(t: Counter): nat {
    if t == [] then 0 else t[0].count + Total(t[1..])
  }

  /** The count stored under `k`, or 0 when there is no such property. */
  function CountAt(t: Counter, k: string): nat {
    if t == [] then 0 else (if t[0].key == k then t[0].count else 0) + CountAt(t[1..], k)
  }

  /** `obj[k] = (obj[k] || 0) + 1`: increment in place, or add the key at the end. */
  function Bump(t: Counter, k: string): Counter {
    if t == [] then [Bucket(k, 1)]
    else if t[0].key == k then [t[0].(count := t[0].count + 1)] + t[1..]
    else [t[0]] + Bump(t[1..], k)
  }

  /** Bumping `keys` one after the other, left to right. */
  function BumpAll(t: Counter, keys: seq<string>): Counter {
    if keys == [] then t else Bump(BumpAll(t, keys[..|keys| - 1]), keys[|keys| - 1])
  }

  /** The counter a loop builds from an empty object `{}`. */
  function TallyOf(keys: seq<string>): Counter {
    BumpAll([], keys)
  }

  /** The keys of `keys` without repetitions, each where it first occurs. */
  function FirstSeen(keys: seq<string>): seq<string> {
    if keys == [] then []
    else
      var f := FirstSeen(keys[..|keys| - 1]);
      if keys[|keys| - 1] in f then f else f + [keys[|keys| - 1]]
  }

  lemma {:induction false} BumpTotal(t: Counter, k: string)
    ensures Total(Bump(t, k)) == Total(t) + 1
  {
    if t != [] && t[0].key != k {
      BumpTotal(t[1..], k);
      assert Bump(t, k)[1..] == Bump(t[1..], k);
    } else if t != [] {
      assert Bump(t, k)[1..] == t[1..];
    }
  }

  lemma {:induction false} BumpCountAt(t: Counter, k: string, j: string)
    ensures CountAt(Bump(t, k), j) == CountAt(t, j) + (if j == k then 1 else 0)
  {
    if t != [] && t[0].key != k {
      BumpCountAt(t[1..], k, j);
      assert Bump(t, k)[1..] == Bump(t[1..], k);
    } else if t != [] {
      assert Bump(t, k)[1..] == t[1..];
    }
  }

  /** Bumping an existing key keeps the key order; a new key goes last. */
  lemma {:induction false} BumpKeys(t: Counter, k: string)
    ensures Keys(Bump(t, k)) == if k in Keys(t) then Keys(t) else Keys(t) + [k]
  {
    if t == [] {
    } else if t[0].key == k {
      assert Bump(t, k)[1..] == t[1..];
    } else {
      BumpKeys(t[1..], k);
      assert Bump(t, k)[1..] == Bump(t[1..], k);
      assert Keys(t) == [t[0].key] + Keys(t[1..]);
    }
  }

  lemma {:induction false} DistinctKeysFromSeq(t: Counter)
    requires forall i, j | 0 <= i < j < |Keys(t)| :: Keys(t)[i] != Keys(t)[j]
    ensures DistinctKeys(t)
  {
    KeysIndex(t);
  }

  lemma {:induction false} KeysIndex(t: Counter)
    ensures |Keys(t)| == |t|
    ensures forall i | 0 <= i < |t| :: Keys(t)[i] == t[i].key
  {
    if t != [] {
      KeysIndex(t[1..]);
    }
  }

  lemma {:induction false} TallyTotal(keys: seq<string>)
    ensures Total(TallyOf(keys)) == |keys|
  {
    if keys != [] {
      TallyTotal(keys[..|keys| - 1]);
      BumpTotal(TallyOf(keys[..|keys| - 1]), keys[|keys| - 1]);
    }
  }

  /** The count under `k` is the number of occurrences of `k`. */
  lemma {:induction false} TallyCountAt(keys: seq<string>, k: string)
    ensures CountAt(TallyOf(keys), k) == multiset(keys)[k]
  {
    if keys != [] {
      var init, last := keys[..|keys| - 1], keys[|keys| - 1];
      TallyCountAt(init, k);
      BumpCountAt(TallyOf(init), last, k);
      assert keys == init + [last];
    }
  }

  /** The properties appear in first-seen order, each once. */
  lemma {:induction false} TallyKeys(keys: seq<string>)
    ensures Keys(TallyOf(keys)) == FirstSeen(keys)
  {
    if keys != [] {
      var init := keys[..|keys| - 1];
      TallyKeys(init);
      BumpKeys(TallyOf(init), keys[|keys| - 1]);
    }
  }

  lemma {:induction false} FirstSeenDistinct(keys: seq<string>)
    ensures forall i, j | 0 <= i < j < |FirstSeen(keys)| :: FirstSeen(keys)[i] != FirstSeen(keys)[j]
    ensures forall k :: k in FirstSeen(keys) <==> k in keys
  {
    if keys != [] {
      var init := keys[..|keys| - 1];
      FirstSeenDistinct(init);
      assert keys == init + [keys[|keys| - 1]];
    }
  }

  lemma TallyDistinct(keys: seq<string>)
    ensures DistinctKeys(TallyOf(keys))
  {
    TallyKeys(keys);
    FirstSeenDistinct(keys);
    DistinctKeysFromSeq(TallyOf(keys));
  }
}
