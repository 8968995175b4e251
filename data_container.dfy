/**
 * FuelPHP\Common\DataContainer: a PHP array behind a read-only flag that guards every
 * mutator.
 *
 * A PHP array is an ordered list of entries with distinct keys, together with the next
 * free integer index that `$a[] = $v` uses (it never goes down, and it is above every
 * integer key the array has held). Keys are flat: the dot-notation nesting of the arr_*
 * helpers is not modelled.
 */
module Containers {
  import opened Wrappers

  datatype Key = IntKey(i: int) | StrKey(s: string)

  datatype RawArray<V> = RawArray(entries: seq<(Key, V)>, nextFree: int)
  {
    /** Keys are distinct, and the next free index is non-negative and above every integer key. */
    predicate Wf() {
      && nextFree >= 0
      && (forall i, j :: 0 <= i < j < |entries| ==> entries[i].0 != entries[j].0)
      && (forall i :: 0 <= i < |entries| && entries[i].0.IntKey? ==> entries[i].0.i < nextFree)
    }
  }

  type PhpArray<V> = a: RawArray<V> | a.Wf() witness RawArray([], 0)

  predicate HasKey<V>(a: RawArray<V>, k: Key) {
    exists i :: 0 <= i < |a.entries| && a.entries[i].0 == k
  }

  /** The set of keys of the array. */
  function KeySet<V>(a: RawArray<V>): set<Key> {
    set i | 0 <= i < |a.entries| :: a.entries[i].0
  }

  /** The position of the first entry with key k. */
  function IndexOf<V>(entries: seq<(Key, V)>, k: Key): (r: Option<nat>)
    ensures r != None ==> r.value < |entries| && entries[r.value].0 == k
    ensures r == None ==> forall i :: 0 <= i < |entries| ==> entries[i].0 != k
  {
    if |entries| == 0 then None
    else if entries[0].0 == k then Some(0)
    else
      match IndexOf(entries[1..], k)
      case Some(j) => Some(j + 1)
      case None => None
  }

  /** The value stored under k, if any. */
  function Lookup<V>(a: PhpArray<V>, k: Key): (r: Option<V>)
    ensures r != None <==> HasKey(a, k)
    ensures forall i :: 0 <= i < |a.entries| && a.entries[i].0 == k ==> r == Some(a.entries[i].1)
  {
    match IndexOf(a.entries, k)
    case Some(i) => Some(a.entries[i].1)
    case None => None
  }

  /** The next free index after storing under k: one past k when k is an integer at or above it. */
  function NextAfter(nextFree: int, k: Key): int {
    if k.IntKey? && k.i >= nextFree then k.i + 1 else nextFree
  }

  /**
   * `$a[$k] = $v`: an existing key keeps its position and takes the new value; a new key
   * is appended at the end and may raise the next free index.
   */
  function Put<V>(a: PhpArray<V>, k: Key, v: V): (r: PhpArray<V>)
    ensures Lookup(r, k) == Some(v)
    ensures forall k' :: k' != k ==> Lookup(r, k') == Lookup(a, k')
    ensures HasKey(a, k) ==> |r.entries| == |a.entries| && r.nextFree == a.nextFree
    ensures HasKey(a, k) ==> forall j :: 0 <= j < |a.entries| ==>
              r.entries[j] == if a.entries[j].0 == k then (k, v) else a.entries[j]
    ensures !HasKey(a, k) ==> r.entries == a.entries + [(k, v)] && r.nextFree == NextAfter(a.nextFree, k)
  {
    match IndexOf(a.entries, k)
    case Some(i) =>
      var r := RawArray(a.entries[i := (k, v)], a.nextFree);
      assert forall j :: 0 <= j < |r.entries| ==> r.entries[j].0 == a.entries[j].0;
      r
    case None =>
      var r := RawArray(a.entries + [(k, v)], NextAfter(a.nextFree, k));
      assert forall j :: 0 <= j < |a.entries| ==> r.entries[j] == a.entries[j];
      assert HasKey(r, k) by {
        assert r.entries[|a.entries|].0 == k;
      }
      r
  }

  /** `$a[] = $v`: the value is appended under the next free index, which then moves up by one. */
  function Append<V>(a: PhpArray<V>, v: V): (r: PhpArray<V>)
    ensures r.entries == a.entries + [(IntKey(a.nextFree), v)]
    ensures r.nextFree == a.nextFree + 1
  {
    assert !HasKey(a, IntKey(a.nextFree));
    Put(a, IntKey(a.nextFree), v)
  }

  /** e is entries with the entry at position i taken out. */
  ghost predicate RemovedAt<V>(entries: seq<(Key, V)>, e: seq<(Key, V)>, i: int) {
    0 <= i < |entries| && e == entries[..i] + entries[i + 1..]
  }

  /** `unset($a[$k])`: the entry goes, the others keep their order, the next free index stays. */
  function Remove<V>(a: PhpArray<V>, k: Key): (r: PhpArray<V>)
    ensures !HasKey(r, k)
    ensures forall k' :: k' != k ==> Lookup(r, k') == Lookup(a, k')
    ensures |r.entries| == if HasKey(a, k) then |a.entries| - 1 else |a.entries|
    ensures r.nextFree == a.nextFree
    ensures HasKey(a, k) ==> exists i :: RemovedAt(a.entries, r.entries, i) && a.entries[i].0 == k
    ensures !HasKey(a, k) ==> r == a
  {
    match IndexOf(a.entries, k)
    case Some(i) =>
      var e := a.entries[..i] + a.entries[i + 1..];
      assert forall j :: 0 <= j < |e| ==> e[j] == a.entries[if j < i then j else j + 1];
      var r: PhpArray<V> := RawArray(e, a.nextFree);
      forall k' | k' != k
        ensures Lookup(r, k') == Lookup(a, k')
      {
        if HasKey(a, k') {
          var m :| 0 <= m < |a.entries| && a.entries[m].0 == k';
          var p := if m < i then m else m - 1;
          assert e[p] == a.entries[m];
        }
      }
      assert RemovedAt(a.entries, r.entries, i);
      r
    case None => a
  }

  /** The number of entries of an array is the number of its distinct keys. */
  lemma {:induction false} EntryCountIsKeyCount<V>(a: PhpArray<V>)
    ensures |KeySet(a)| == |a.entries|
    decreases |a.entries|
  {
    if |a.entries| > 0 {
      var n := |a.entries| - 1;
      var front: PhpArray<V> := RawArray(a.entries[..n], a.nextFree);
      EntryCountIsKeyCount(front);
      assert KeySet(a) == KeySet(front) + {a.entries[n].0};
      assert a.entries[n].0 !in KeySet(front);
    }
  }

  /** Appending leaves every key that was there with its value, and adds only the new index. */
  lemma AppendChangesNothingElse<V>(a: PhpArray<V>, v: V)
    ensures Lookup(Append(a, v), IntKey(a.nextFree)) == Some(v)
    ensures !HasKey(a, IntKey(a.nextFree))
    ensures forall k :: k != IntKey(a.nextFree) ==> Lookup(Append(a, v), k) == Lookup(a, k)
  {
    assert !HasKey(a, IntKey(a.nextFree));
  }

  /** What the mutators throw. */
  datatype ContainerError = ReadOnlyViolation | OutOfBounds(key: Key)

  /** An argument of merge(): an array, or a container whose contents are used. */
  datatype MergeArg<V> = ArrayArg(items: PhpArray<V>) | ContainerArg(container: DataContainer<V>)

  /** The containers among the merge arguments. */
  function ContainersOf<V>(args: seq<MergeArg<V>>): set<DataContainer<V>> {
    set i | 0 <= i < |args| && args[i].ContainerArg? :: args[i].container
  }

  /** The array_map of merge(): each container replaced by its contents, arrays kept, in order. */
  function Unwrapped<V>(args: seq<MergeArg<V>>): (r: seq<PhpArray<V>>)
    reads ContainersOf(args)
    ensures |r| == |args|
    ensures forall i :: 0 <= i < |args| ==>
              r[i] == if args[i].ContainerArg? then args[i].container.data else args[i].items
  {
    seq(|args|, i reads ContainersOf(args) requires 0 <= i < |args| =>
      match args[i]
      case ContainerArg(c) => c.data
      case ArrayArg(a) => a)
  }

  class DataContainer<V> {
    var data: PhpArray<V>
    var readOnly: bool

    constructor (data: PhpArray<V>, readOnly: bool)
      ensures this.data == data && this.readOnly == readOnly
    {
      this.data := data;
      this.readOnly := readOnly;
    }

    /** getContents(): the stored array itself, entries and next free index. */
    function GetContents(): (r: PhpArray<V>)
      reads this
      ensures r == data
    {
      data
    }

    /** all(): the same stored array as getContents(). */
    function All(): (r: PhpArray<V>)
      reads this
      ensures r == GetContents()
    {
      data
    }

    /** isReadOnly(): the flag that guards the mutators. */
    function IsReadOnly(): (r: bool)
      reads this
      ensures r == readOnly
    {
      readOnly
    }

    /** setContents(): replaces the data, unless the container is read-only. */
    method SetContents(d: PhpArray<V>) returns (r: Outcome<ContainerError>)
      modifies this`data
      ensures old(readOnly) ==> r == Fail(ReadOnlyViolation) && data == old(data)
      ensures !old(readOnly) ==> r == Pass && GetContents() == d && All() == d
    {
      if readOnly {
        return Fail(ReadOnlyViolation);
      }
      data := d;
      r := Pass;
    }

    /** setReadOnly(): stores the flag. */
    method SetReadOnly(flag: bool)
      modifies this`readOnly
      ensures IsReadOnly() == flag
    {
      readOnly := flag;
    }

    /**
     * merge(): unless read-only, the data becomes arr_merge of the container's own data
     * followed by the arguments, each container argument replaced by its contents.
     */
    method Merge(args: seq<MergeArg<V>>, arrMerge: seq<PhpArray<V>> -> PhpArray<V>)
      returns (r: Outcome<ContainerError>)
      modifies this`data
      ensures old(readOnly) ==> r == Fail(ReadOnlyViolation) && data == old(data)
      ensures !old(readOnly) ==> r == Pass && data == arrMerge([old(data)] + old(Unwrapped(args)))
    {
      if readOnly {
        return Fail(ReadOnlyViolation);
      }
      var arguments := Unwrapped(args);
      data := arrMerge([data] + arguments);
      r := Pass;
    }

    function Has(key: Key): (r: bool)
      reads this
      ensures r <==> key in KeySet(data)
    {
      HasKey(data, key)
    }

    /** get(): the stored value, or the default when the key is absent. */
    function Get(key: Key, default: V): (r: V)
      reads this
      ensures Has(key) ==> Lookup(data, key) == Some(r)
      ensures !Has(key) ==> r == default
    {
      match Lookup(data, key)
      case Some(v) => v
      case None => default
    }

    /**
     * set(): unless read-only, a missing key (null) appends at the next free index, and a
     * given key stores the value under it.
     */
    method Set(key: Option<Key>, value: V) returns (r: Outcome<ContainerError>)
      modifies this`data
      ensures old(readOnly) ==> r == Fail(ReadOnlyViolation) && data == old(data)
      ensures !old(readOnly) && key == None ==> r == Pass && data == Append(old(data), value)
      ensures !old(readOnly) && key != None ==> r == Pass && data == Put(old(data), key.value, value)
    {
      if readOnly {
        return Fail(ReadOnlyViolation);
      }
      if key == None {
        data := Append(data, value);
        return Pass;
      }
      data := Put(data, key.value, value);
      r := Pass;
    }

    /** delete(): unless read-only, removes the key and reports whether it was there. */
    method Delete(key: Key) returns (r: Result<bool, ContainerError>)
      modifies this`data
      ensures old(readOnly) ==> r == Failure(ReadOnlyViolation) && data == old(data)
      ensures !old(readOnly) ==> r == Success(old(Has(key))) && data == Remove(old(data), key)
    {
      if readOnly {
        return Failure(ReadOnlyViolation);
      }
      r := Success(Has(key));
      data := Remove(data, key);
    }

    function OffsetExists(key: Key): (r: bool)
      reads this
      ensures r == Has(key)
    {
      Has(key)
    }

    /** offsetGet(): the stored value; a missing key throws OutOfBoundsException. */
    function OffsetGet(key: Key): (r: Result<V, ContainerError>)
      reads this
      ensures Has(key) ==> r.Success? && Lookup(data, key) == Some(r.value)
      ensures !Has(key) ==> r == Failure(OutOfBounds(key))
    {
      match Lookup(data, key)
      case Some(v) => Success(v)
      case None => Failure(OutOfBounds(key))
    }

    /** offsetSet(): set() under the key, with its read-only guard. */
    method OffsetSet(key: Option<Key>, value: V) returns (r: Outcome<ContainerError>)
      modifies this`data
      ensures old(readOnly) ==> r == Fail(ReadOnlyViolation) && data == old(data)
      ensures !old(readOnly) && key == None ==> r == Pass && data == Append(old(data), value)
      ensures !old(readOnly) && key != None ==> r == Pass && data == Put(old(data), key.value, value)
    {
      r := Set(key, value);
    }

    /** offsetUnset(): delete() of the key, with its read-only guard. */
    method OffsetUnset(key: Key) returns (r: Result<bool, ContainerError>)
      modifies this`data
      ensures old(readOnly) ==> r == Failure(ReadOnlyViolation) && data == old(data)
      ensures !old(readOnly) ==> r == Success(old(Has(key))) && data == Remove(old(data), key)
    {
      r := Delete(key);
    }

    /** getIterator(): the entries in insertion order. */
    function Entries(): (r: seq<(Key, V)>)
      reads this
      ensures r == data.entries
      ensures |r| == |KeySet(data)|
      ensures forall i, j :: 0 <= i < j < |r| ==> r[i].0 != r[j].0
      ensures forall i :: 0 <= i < |r| ==> Lookup(data, r[i].0) == Some(r[i].1)
      ensures forall k :: HasKey(data, k) <==> exists i :: 0 <= i < |r| && r[i].0 == k
    {
      EntryCountIsKeyCount(data);
      data.entries
    }

    /** count(): the number of entries, which is the number of distinct keys. */
    function Count(): (r: nat)
      reads this
      ensures r == |KeySet(data)|
      ensures r == 0 <==> data.entries == []
    {
      EntryCountIsKeyCount(data);
      |data.entries|
    }
  }
}
