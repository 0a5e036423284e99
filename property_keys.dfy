/** The order in which `Object.keys` lists the string keys of an ordinary
    object (OrdinaryOwnPropertyKeys, section 10.1.11.1 of ECMA-262): first
    every array-index key in ascending numeric order, then every other key
    in the order it was first created. */
module PropertyKeys {

  /** The largest array index, 2^32 - 2. */
  const MaxArrayIndex: nat := 0xFFFF_FFFE

  predicate IsDigit(c: char)
  {
    '0' <= c <= '9'
  }

  /** The number a string of decimal digits denotes. */
  function DigitsValue(s: string): nat
  {
    if s == [] then 0
    else DigitsValue(s[..|s| - 1]) * 10 + (s[|s| - 1] as int - '0' as int) % 10
  }

  /** A canonical decimal numeral (no sign, no leading zero) for an
      integer from 0 to 2^32 - 2. */
  predicate IsArrayIndex(k: string)
  {
    && |k| > 0
    && (forall i :: 0 <= i < |k| ==> IsDigit(k[i]))
    && (k[0] != '0' || |k| == 1)
    && DigitsValue(k) <= MaxArrayIndex
  }

  /** The empty string is never an array index, so it is always listed
      after every index key. */
  lemma EmptyIsNotIndex()
    ensures !IsArrayIndex("")
  {
  }

  /** No key that is not an array index comes before an array-index key. */
  predicate IndicesFirst(s: seq<string>)
  {
    forall i, j :: 0 <= i < j < |s| && !IsArrayIndex(s[i]) ==> !IsArrayIndex(s[j])
  }

  predicate NoDuplicates(s: seq<string>)
  {
    forall i, j :: 0 <= i < j < |s| ==> s[i] != s[j]
  }

  /** Each key's numeric value is at most the next one's. */
  predicate AscendingIndices(s: seq<string>)
  {
    |s| <= 1 || (DigitsValue(s[0]) <= DigitsValue(s[1]) && AscendingIndices(s[1..]))
  }

  /** The array-index keys of `keys`, in their original order. */
  function IndexKeys(keys: seq<string>): (r: seq<string>)
    ensures forall k :: k in r <==> k in keys && IsArrayIndex(k)
  {
    if keys == [] then []
    else if IsArrayIndex(keys[0]) then [keys[0]] + IndexKeys(keys[1..])
    else IndexKeys(keys[1..])
  }

  /** The keys of `keys` that are not array indices, in their original order. */
  function NamedKeys(keys: seq<string>): (r: seq<string>)
    ensures forall k :: k in r <==> k in keys && !IsArrayIndex(k)
  {
    if keys == [] then []
    else if IsArrayIndex(keys[0]) then NamedKeys(keys[1..])
    else [keys[0]] + NamedKeys(keys[1..])
  }

  /** Splitting a key list into index keys and named keys loses and
      duplicates nothing. */
  lemma {:induction false} SplitIsPermutation(keys: seq<string>)
    ensures multiset(IndexKeys(keys)) + multiset(NamedKeys(keys)) == multiset(keys)
  {
    if keys != [] {
      SplitIsPermutation(keys[1..]);
      assert keys == [keys[0]] + keys[1..];
    }
  }

  /** Puts index key `k` into the ascending list `sorted`. */
  function InsertIndexKey(k: string, sorted: seq<string>): (r: seq<string>)
    ensures multiset(r) == multiset(sorted) + multiset{k}
    ensures |r| == |sorted| + 1
    ensures forall x :: x in r <==> x == k || x in sorted
  {
    if sorted == [] then [k]
    else if DigitsValue(k) <= DigitsValue(sorted[0]) then [k] + sorted
    else
      assert sorted == [sorted[0]] + sorted[1..];
      [sorted[0]] + InsertIndexKey(k, sorted[1..])
  }

  /** Inserting into an ascending list keeps it ascending. */
  lemma {:induction false} InsertKeepsAscending(k: string, sorted: seq<string>)
    requires AscendingIndices(sorted)
    ensures AscendingIndices(InsertIndexKey(k, sorted))
    ensures InsertIndexKey(k, sorted)[0] == k || InsertIndexKey(k, sorted)[0] == sorted[0]
  {
    if sorted != [] && DigitsValue(k) > DigitsValue(sorted[0]) {
      InsertKeepsAscending(k, sorted[1..]);
      var rest := InsertIndexKey(k, sorted[1..]);
      assert ([sorted[0]] + rest)[1..] == rest;
    }
  }

  /** Sorts keys by numeric value (insertion sort). */
  function SortIndexKeys(keys: seq<string>): (r: seq<string>)
    ensures multiset(r) == multiset(keys)
    ensures |r| == |keys|
    ensures forall x :: x in r <==> x in keys
  {
    if keys == [] then []
    else
      assert keys == [keys[0]] + keys[1..];
      InsertIndexKey(keys[0], SortIndexKeys(keys[1..]))
  }

  lemma {:induction false} SortIsAscending(keys: seq<string>)
    ensures AscendingIndices(SortIndexKeys(keys))
  {
    if keys != [] {
      SortIsAscending(keys[1..]);
      InsertKeepsAscending(keys[0], SortIndexKeys(keys[1..]));
    }
  }

  /** `Object.keys(o)` for an object whose keys were created in the order
      `created`. */
  function OwnKeys(created: seq<string>): seq<string>
  {
    SortIndexKeys(IndexKeys(created)) + NamedKeys(created)
  }

  /** `Object.keys` lists each created key exactly as often as it was
      created: the same keys, the same length. */
  lemma OwnKeysIsPermutation(created: seq<string>)
    ensures multiset(OwnKeys(created)) == multiset(created)
    ensures |OwnKeys(created)| == |created|
    ensures forall k :: k in OwnKeys(created) <==> k in created
  {
    SplitIsPermutation(created);
    var r := OwnKeys(created);
    assert multiset(r) == multiset(created);
    forall k ensures k in r <==> k in created {
      assert k in r <==> k in multiset(r);
    }
  }

  /** `Object.keys` lists every array-index key, in ascending numeric
      order, before every other key, and the other keys in creation order. */
  lemma OwnKeysOrder(created: seq<string>)
    ensures IndicesFirst(OwnKeys(created))
    ensures AscendingIndices(OwnKeys(created)[..|IndexKeys(created)|])
    ensures OwnKeys(created)[|IndexKeys(created)|..] == NamedKeys(created)
  {
    var indices := SortIndexKeys(IndexKeys(created));
    var named := NamedKeys(created);
    var r := OwnKeys(created);
    SortIsAscending(IndexKeys(created));
    forall i | 0 <= i < |indices| ensures IsArrayIndex(r[i]) {
      assert r[i] == indices[i];
      assert r[i] in indices;
    }
    forall j | |indices| <= j < |r| ensures !IsArrayIndex(r[j]) {
      assert r[j] == named[j - |indices|];
      assert r[j] in named;
    }
    assert r[..|indices|] == indices;
    assert r[|indices|..] == named;
  }
}
