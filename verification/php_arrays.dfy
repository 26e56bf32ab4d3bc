/**
 * PHP values as the SDK sees them: scalars and ordered arrays whose keys are
 * integers or strings. An array is the sequence of its entries in insertion
 * order; the lookup and insertion functions below follow PHP's hash-table
 * semantics (first matching key wins, appends go to the next free integer key).
 */
module PhpArrays {
  import opened Wrappers

  /** A PHP array key. */
  datatype Key = IntKey(n: int) | StrKey(s: string)

  /** A PHP value. Floats are kept as opaque reals: the SDK never computes with them. */
  datatype Value =
    | Null
    | Bool(b: bool)
    | Int(i: int)
    | Float(x: real)
    | Str(s: string)
    | Arr(entries: seq<(Key, Value)>)

  type Entry = (Key, Value)

  /** The PHP array invariant: no key occurs twice. */
  predicate UniqueKeys(es: seq<Entry>)
  {
    forall i, j :: 0 <= i < j < |es| ==> es[i].0 != es[j].0
  }

  /** Position of the entry stored under `k`, if any. */
  function IndexOf(es: seq<Entry>, k: Key): (r: Option<nat>)
    ensures r.Some? ==> r.value < |es| && es[r.value].0 == k
    ensures r.Some? ==> forall j :: 0 <= j < r.value ==> es[j].0 != k
    ensures r.None? ==> forall j :: 0 <= j < |es| ==> es[j].0 != k
  {
    if es == [] then None
    else if es[0].0 == k then Some(0)
    else
      match IndexOf(es[1..], k)
      case None => None
      case Some(j) => Some(j + 1)
  }

  /** `$a[$k]` when `isset`-style presence is what matters: the stored value, or None. */
  function Lookup(es: seq<Entry>, k: Key): (r: Option<Value>)
    ensures r.None? <==> forall j :: 0 <= j < |es| ==> es[j].0 != k
    ensures r.Some? ==> exists j :: 0 <= j < |es| && es[j] == (k, r.value)
  {
    match IndexOf(es, k)
    case Some(i) => Some(es[i].1)
    case None => None
  }

  /**
   * The key `$a[] = v` uses: one past the largest integer key, and never below
   * zero (PHP 8.2 and earlier; PHP 8.3 differs only when every integer key is negative).
   */
  function NextIndex(es: seq<Entry>): (r: int)
    ensures r >= 0
    ensures forall j :: 0 <= j < |es| && es[j].0.IntKey? ==> es[j].0.n < r
  {
    if es == [] then 0
    else
      var rest := NextIndex(es[1..]);
      if es[0].0.IntKey? && es[0].0.n >= rest then es[0].0.n + 1 else rest
  }

  /** `$a[] = v`. */
  function Append(es: seq<Entry>, v: Value): (r: seq<Entry>)
    ensures |r| == |es| + 1 && r[..|es|] == es
    ensures r[|es|].1 == v && r[|es|].0.IntKey?
    ensures forall j :: 0 <= j < |es| ==> es[j].0 != r[|es|].0
  {
    es + [(IntKey(NextIndex(es)), v)]
  }

  /** PHP's `(array)` conversion of a value: arrays stay, any other value becomes `[0 => v]`. */
  function AsArray(v: Value): (r: seq<Entry>)
    ensures v.Arr? ==> r == v.entries
    ensures !v.Arr? ==> |r| == 1 && r[0].1 == v
  {
    if v.Arr? then v.entries else [(IntKey(0), v)]
  }

  /** The values of an array, in order. */
  function ValuesOf(es: seq<Entry>): (r: seq<Value>)
    ensures |r| == |es|
    ensures forall j :: 0 <= j < |es| ==> r[j] == es[j].1
  {
    seq(|es|, j requires 0 <= j < |es| => es[j].1)
  }

  // ---------------------------------------------------------------------------
  // Lookup after the edits the merge performs.
  // ---------------------------------------------------------------------------

  /** The first entry decides a lookup. */
  lemma LookupFirst(es: seq<Entry>, k: Key)
    requires es != []
    ensures Lookup(es, k) == if es[0].0 == k then Some(es[0].1) else Lookup(es[1..], k)
  {
  }

  /** Appending an entry is only visible to a key the array did not hold. */
  lemma {:induction false} LookupSnoc(es: seq<Entry>, e: Entry, k: Key)
    ensures Lookup(es + [e], k) ==
              if Lookup(es, k).Some? then Lookup(es, k)
              else if e.0 == k then Some(e.1) else None
  {
    var es' := es + [e];
    match IndexOf(es, k)
    case Some(i) =>
      assert es'[i] == es[i];
      assert forall j :: 0 <= j < |es| ==> es'[j] == es[j];
    case None =>
      if e.0 == k {
        assert es'[|es|] == e;
        assert forall j :: 0 <= j < |es| ==> es'[j] == es[j];
      } else {
        assert forall j :: 0 <= j < |es'| ==> es'[j].0 != k by {
          forall j | 0 <= j < |es'| ensures es'[j].0 != k {
            if j < |es| { assert es'[j] == es[j]; }
          }
        }
      }
  }

  /** Arrays with the same keys in the same order find a key at the same position. */
  lemma IndexOfSameKeys(es: seq<Entry>, es': seq<Entry>, k: Key)
    requires |es| == |es'|
    requires forall j :: 0 <= j < |es| ==> es[j].0 == es'[j].0
    ensures IndexOf(es, k) == IndexOf(es', k)
  {
  }

  /** Overwriting the value at a key's position changes the lookup of that key only. */
  lemma LookupUpdate(es: seq<Entry>, i: nat, v: Value, k: Key)
    requires i < |es|
    requires IndexOf(es, es[i].0) == Some(i)
    ensures Lookup(es[i := (es[i].0, v)], k) ==
              if k == es[i].0 then Some(v) else Lookup(es, k)
  {
    var es' := es[i := (es[i].0, v)];
    IndexOfSameKeys(es, es', k);
  }
}
