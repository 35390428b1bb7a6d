/**
  A Python dict literal from label to integer code, kept as its (key, value)
  pairs in insertion order, with the two ways the app reads it:
  the subscript `d[k]` and the reverse lookup
  `[k for k, v in d.items() if v == x][0]`.
 */
module DictTable {
  import opened Wrappers

  /** The items of a dict, in insertion order. */
  type Table<K> = seq<(K, int)>

  /** `list(d.keys())` */
  function Keys<K>(t: Table<K>): seq<K>
  {
    seq(|t|, i requires 0 <= i < |t| => t[i].0)
  }

  /** No key occurs twice: the items of a genuine dict. */
  predicate IsDict<K(==)>(t: Table<K>)
  {
    forall i, j :: 0 <= i < j < |t| ==> t[i].0 != t[j].0
  }

  /** No code is shared by two labels. */
  predicate Injective<K>(t: Table<K>)
  {
    forall i, j :: 0 <= i < j < |t| ==> t[i].1 != t[j].1
  }

  /** The codes are exactly 0, 1, ..., |t| - 1, in insertion order. */
  predicate CodesAreIndices<K>(t: Table<K>)
  {
    forall i :: 0 <= i < |t| ==> t[i].1 == i
  }

  /** The shape of the app's three category maps. */
  predicate WellFormedOptions<K(==)>(t: Table<K>)
  {
    IsDict(t) && CodesAreIndices(t)
  }

  /** `d[k]`; None is the KeyError raised for a missing key. */
  function Get<K(==)>(t: Table<K>, k: K): (r: Option<int>)
    ensures r.Some? <==> k in Keys(t)
    ensures r.Some? ==> (k, r.value) in t
  {
    if t == [] then None
    else if t[0].0 == k then
      assert Keys(t)[0] == k;
      Some(t[0].1)
    else
      assert Keys(t) == [t[0].0] + Keys(t[1..]);
      Get(t[1..], k)
  }

  /** `[k for k, v in d.items() if v == x]` */
  function KeysWithValue<K>(t: Table<K>, x: int): (ks: seq<K>)
    ensures |ks| <= |t|
    ensures forall k :: k in ks ==> (k, x) in t
    ensures forall i :: 0 <= i < |t| && t[i].1 == x ==> t[i].0 in ks
    ensures ks != [] ==> exists i :: 0 <= i < |t| && t[i] == (ks[0], x)
                                     && forall j :: 0 <= j < i ==> t[j].1 != x
  {
    if t == [] then []
    else
      var rest := KeysWithValue(t[1..], x);
      if t[0].1 == x then
        [t[0].0] + rest
      else
        assert rest != [] ==> exists i :: 1 <= i < |t| && t[i] == (rest[0], x)
                                          && forall j :: 0 <= j < i ==> t[j].1 != x by {
          if rest != [] {
            var i' :| 0 <= i' < |t[1..]| && t[1..][i'] == (rest[0], x)
                      && forall j :: 0 <= j < i' ==> t[1..][j].1 != x;
            assert t[i' + 1] == (rest[0], x);
          }
        }
        rest
  }

  /**
    `[k for k, v in d.items() if v == x][0]`: the first label, in insertion
    order, whose code is `x`; None is the IndexError raised when no label has it.
   */
  function FirstKeyWithValue<K>(t: Table<K>, x: int): (r: Option<K>)
    ensures r.None? <==> forall i :: 0 <= i < |t| ==> t[i].1 != x
    ensures r.Some? ==> exists i :: 0 <= i < |t| && t[i] == (r.value, x)
                                    && forall j :: 0 <= j < i ==> t[j].1 != x
  {
    var ks := KeysWithValue(t, x);
    if |ks| == 0 then None else Some(ks[0])
  }

  /** In a table without shared codes, the comprehension finds exactly one label. */
  lemma {:induction false} UniqueMatch<K>(t: Table<K>, i: int)
    requires Injective(t) && 0 <= i < |t|
    ensures KeysWithValue(t, t[i].1) == [t[i].0]
  {
    var x := t[i].1;
    if i == 0 {
      assert forall j :: 0 <= j < |t[1..]| ==> t[1..][j].1 != x;
    } else {
      assert t[0].1 != x;
      assert t[1..][i - 1] == t[i];
      UniqueMatch(t[1..], i - 1);
    }
  }

  /** The subscript of a present key yields the code stored at that key's position. */
  lemma GetAt<K>(t: Table<K>, i: int)
    requires IsDict(t) && 0 <= i < |t|
    ensures Get(t, t[i].0) == Some(t[i].1)
  {
    assert t[i].0 in Keys(t) by { assert Keys(t)[i] == t[i].0; }
  }

  /** Encoding a label and decoding its code by first match gives the label back. */
  lemma DecodeEncoded<K>(t: Table<K>, k: K)
    requires IsDict(t) && Injective(t) && k in Keys(t)
    ensures Get(t, k).Some? && FirstKeyWithValue(t, Get(t, k).value) == Some(k)
  {
    var i :| 0 <= i < |t| && Keys(t)[i] == k;
    GetAt(t, i);
    UniqueMatch(t, i);
  }

  /** Decoding a code by first match and encoding the label gives the code back. */
  lemma EncodeDecoded<K>(t: Table<K>, x: int)
    requires IsDict(t) && FirstKeyWithValue(t, x).Some?
    ensures Get(t, FirstKeyWithValue(t, x).value) == Some(x)
  {
    var k := FirstKeyWithValue(t, x).value;
    var i :| 0 <= i < |t| && t[i] == (k, x) && forall j :: 0 <= j < i ==> t[j].1 != x;
    GetAt(t, i);
  }

  /** Codes that are positions are pairwise distinct. */
  lemma IndexCodesInjective<K>(t: Table<K>)
    requires CodesAreIndices(t)
    ensures Injective(t)
  {
  }
}
