/**
 * PHP's `array_merge_recursive`, which the gateway uses to add its headers to
 * the caller's request options (src/HttpClient.php:30).
 *
 * Merging `src` into `dest` walks `src` in order:
 *  - an integer-keyed entry is appended to `dest` under the next free index;
 *  - a string key `dest` lacks is appended with its value;
 *  - a string key `dest` already holds turns the held value into an array
 *    (a non-array `d` becomes `[0 => d]`) and then either merges the incoming
 *    array into it recursively or appends the incoming non-array value to it.
 * So a colliding string key never has its value replaced: both values are kept.
 */
module ArrayMerge {
  import opened Wrappers
  import opened PhpArrays

  /** Merges `src[i..]` into `dest`, one entry at a time. */
  function MergeFrom(dest: seq<Entry>, src: seq<Entry>, i: nat): seq<Entry>
    requires i <= |src|
    decreases Arr(src), |src| - i
  {
    if i == |src| then dest
    else MergeFrom(MergeEntry(dest, src[i].0, src[i].1), src, i + 1)
  }

  /** Merges the single entry `k => v` into `dest`. */
  function MergeEntry(dest: seq<Entry>, k: Key, v: Value): seq<Entry>
    decreases v, if v.Arr? then |v.entries| + 2 else 1
  {
    if k.IntKey? then Append(dest, v)
    else
      match IndexOf(dest, k)
      case None => dest + [(k, v)]
      case Some(j) => dest[j := (k, Arr(Combine(dest[j].1, v)))]
  }

  /** The array a colliding string key ends up holding: held value `d`, incoming value `s`. */
  function Combine(d: Value, s: Value): seq<Entry>
    decreases s, if s.Arr? then |s.entries| + 1 else 0
  {
    if s.Arr? then MergeFrom(AsArray(d), s.entries, 0) else Append(AsArray(d), s)
  }

  /** Merges all of `src` into `dest`. */
  function MergeRecursive(dest: seq<Entry>, src: seq<Entry>): seq<Entry>
  {
    MergeFrom(dest, src, 0)
  }

  /** `array_merge_recursive($first, $second)`: a copy of `$first`, then `$second` merged in. */
  function ArrayMergeRecursive(first: seq<Entry>, second: seq<Entry>): seq<Entry>
  {
    MergeRecursive(MergeRecursive([], first), second)
  }

  /**
   * Key-wise reference for the merge: what a string key holds afterwards, given
   * what it held in `dest` and in `src`.
   */
  function Combined(d: Option<Value>, s: Option<Value>): Option<Value>
  {
    match s
    case None => d
    case Some(sv) =>
      match d
      case None => s
      case Some(dv) => Some(Arr(Combine(dv, sv)))
  }

  // ---------------------------------------------------------------------------
  // The merge agrees with its key-wise reference.
  // ---------------------------------------------------------------------------

  /** A key at the front of an array without duplicates occurs nowhere after it. */
  lemma UniqueTail(src: seq<Entry>, i: nat)
    requires i < |src| && UniqueKeys(src)
    ensures Lookup(src[i..], src[i].0) == Some(src[i].1)
    ensures Lookup(src[i + 1..], src[i].0) == None
  {
  }

  /** One merge step changes the lookup of a string key only when the step's key is that key. */
  lemma StepLookup(dest: seq<Entry>, k: Key, v: Value, key: string)
    ensures Lookup(MergeEntry(dest, k, v), StrKey(key)) ==
              if k == StrKey(key) then Combined(Lookup(dest, k), Some(v)) else Lookup(dest, StrKey(key))
  {
    if k.IntKey? {
      LookupSnoc(dest, (IntKey(NextIndex(dest)), v), StrKey(key));
    } else {
      match IndexOf(dest, k)
      case None =>
        LookupSnoc(dest, (k, v), StrKey(key));
      case Some(j) =>
        LookupUpdate(dest, j, Arr(Combine(dest[j].1, v)), StrKey(key));
    }
  }

  /**
   * After merging `src[i..]` into `dest`, a string key holds what `Combined`
   * says of its value in `dest` and its value in `src[i..]`.
   */
  lemma {:induction false} MergeFromLookup(dest: seq<Entry>, src: seq<Entry>, i: nat, key: string)
    requires i <= |src| && UniqueKeys(src)
    ensures Lookup(MergeFrom(dest, src, i), StrKey(key)) ==
              Combined(Lookup(dest, StrKey(key)), Lookup(src[i..], StrKey(key)))
    decreases |src| - i
  {
    if i < |src| {
      var (k, v) := src[i];
      var dest' := MergeEntry(dest, k, v);
      MergeFromLookup(dest', src, i + 1, key);
      StepLookup(dest, k, v, key);
      UniqueTail(src, i);
      LookupFirst(src[i..], StrKey(key));
      assert src[i..][1..] == src[i + 1..];
    }
  }

  /** `array_merge_recursive` agrees key by key with `Combined`. */
  lemma ArrayMergeRecursiveLookup(first: seq<Entry>, second: seq<Entry>, key: string)
    requires UniqueKeys(first) && UniqueKeys(second)
    ensures Lookup(ArrayMergeRecursive(first, second), StrKey(key)) ==
              Combined(Lookup(first, StrKey(key)), Lookup(second, StrKey(key)))
  {
    MergeFromLookup([], first, 0, key);
    MergeFromLookup(MergeRecursive([], first), second, 0, key);
    assert first[0..] == first;
    assert second[0..] == second;
  }

  // ---------------------------------------------------------------------------
  // Shape of the merged array.
  // ---------------------------------------------------------------------------

  /** One merge step keeps an array free of duplicate keys. */
  lemma MergeEntryUnique(dest: seq<Entry>, k: Key, v: Value)
    requires UniqueKeys(dest)
    ensures UniqueKeys(MergeEntry(dest, k, v))
  {
  }

  /** The merge result is a PHP array again: no key occurs twice. */
  lemma {:induction false} MergeFromUnique(dest: seq<Entry>, src: seq<Entry>, i: nat)
    requires i <= |src| && UniqueKeys(dest)
    ensures UniqueKeys(MergeFrom(dest, src, i))
    decreases |src| - i
  {
    if i < |src| {
      MergeEntryUnique(dest, src[i].0, src[i].1);
      MergeFromUnique(MergeEntry(dest, src[i].0, src[i].1), src, i + 1);
    }
  }

  /** `array_merge_recursive` returns an array without duplicate keys, whatever its arguments. */
  lemma ArrayMergeRecursiveUnique(first: seq<Entry>, second: seq<Entry>)
    ensures UniqueKeys(ArrayMergeRecursive(first, second))
  {
    MergeFromUnique([], first, 0);
    MergeFromUnique(MergeRecursive([], first), second, 0);
  }

  /** Copying an array whose keys are distinct strings reproduces it, order included. */
  lemma {:induction false} CopyStringKeyed(a: seq<Entry>, i: nat)
    requires i <= |a| && UniqueKeys(a)
    requires forall j :: 0 <= j < |a| ==> a[j].0.StrKey?
    ensures MergeFrom(a[..i], a, i) == a
    decreases |a| - i
  {
    if i < |a| {
      assert IndexOf(a[..i], a[i].0).None?;
      assert a[..i] + [a[i]] == a[..i + 1];
      CopyStringKeyed(a, i + 1);
    } else {
      assert a[..i] == a;
    }
  }

  /** The first argument of `array_merge_recursive` is copied unchanged when all its keys are strings. */
  lemma CopyFirst(a: seq<Entry>)
    requires UniqueKeys(a)
    requires forall j :: 0 <= j < |a| ==> a[j].0.StrKey?
    ensures MergeRecursive([], a) == a
  {
    CopyStringKeyed(a, 0);
    assert a[..0] == [];
  }

  /**
   * A string key held on both sides with a non-array incoming value keeps both
   * values: the held one (or its elements) first, the incoming one last.
   */
  lemma CombineKeepsBoth(d: Value, s: Value)
    requires !s.Arr?
    ensures ValuesOf(Combine(d, s)) == ValuesOf(AsArray(d)) + [s]
  {
  }
}
