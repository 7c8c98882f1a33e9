/**
 * Parsed records as JSON-like values. A Python dict is an association list whose
 * keys keep insertion order: assigning to an existing key replaces the value in
 * place, assigning to a new key appends it.
 */
module Json {
  import opened Common

  datatype Value =
    | Null
    | Bool(b: bool)
    | Int(i: int)
    | Num(r: real)
    | Str(s: string)
    | Obj(fields: seq<(string, Value)>)
    | Arr(items: seq<Value>)

  type Fields = seq<(string, Value)>

  /** A found value, or `None` (JSON `null`) when nothing was found. */
  function OrNull(found: Option<Value>): Value
  {
    match found
    case None => Null
    case Some(v) => v
  }

  function Keys<V>(d: seq<(string, V)>): (r: seq<string>)
    ensures |r| == |d|
    ensures forall i :: 0 <= i < |d| ==> r[i] == d[i].0
  {
    if |d| == 0 then [] else [d[0].0] + Keys(d[1..])
  }

  lemma KeysAppend<V>(a: seq<(string, V)>, b: seq<(string, V)>)
    ensures Keys(a + b) == Keys(a) + Keys(b)
  {
  }

  /** No key occurs twice: the invariant every Python dict keeps. */
  predicate UniqueKeys<V>(d: seq<(string, V)>)
  {
    forall i, j :: 0 <= i < j < |d| ==> d[i].0 != d[j].0
  }

  /** `d.get(k)`. */
  function Get<V>(d: seq<(string, V)>, k: string): (r: Option<V>)
    ensures r.Some? <==> k in Keys(d)
  {
    if |d| == 0 then None
    else if d[0].0 == k then Some(d[0].1)
    else Get(d[1..], k)
  }

  lemma KeysCons<V>(x: (string, V), d: seq<(string, V)>)
    ensures Keys([x] + d) == [x.0] + Keys(d)
    ensures ([x] + d)[1..] == d
  {
    assert ([x] + d)[1..] == d;
  }

  /** `d[k] = v`: replaces the value in place when `k` is present, appends otherwise. */
  function Put<V>(d: seq<(string, V)>, k: string, v: V): (r: seq<(string, V)>)
    ensures Keys(r) == if k in Keys(d) then Keys(d) else Keys(d) + [k]
    ensures Get(r, k) == Some(v)
    ensures forall k' :: k' != k ==> Get(r, k') == Get(d, k')
    ensures UniqueKeys(d) ==> UniqueKeys(r)
  {
    if |d| == 0 then [(k, v)]
    else if d[0].0 == k then
      PutHead(d, k, v);
      [(k, v)] + d[1..]
    else
      var rest := Put(d[1..], k, v);
      PutTail(d, k, v, rest);
      [d[0]] + rest
  }

  lemma PutHead<V>(d: seq<(string, V)>, k: string, v: V)
    requires |d| > 0 && d[0].0 == k
    ensures Keys([(k, v)] + d[1..]) == Keys(d)
    ensures Get([(k, v)] + d[1..], k) == Some(v)
    ensures forall k' :: k' != k ==> Get([(k, v)] + d[1..], k') == Get(d, k')
    ensures UniqueKeys(d) ==> UniqueKeys([(k, v)] + d[1..])
  {
    KeysCons((k, v), d[1..]);
    KeysCons(d[0], d[1..]);
    assert d == [d[0]] + d[1..];
  }

  lemma PutTail<V>(d: seq<(string, V)>, k: string, v: V, rest: seq<(string, V)>)
    requires |d| > 0 && d[0].0 != k
    requires Keys(rest) == if k in Keys(d[1..]) then Keys(d[1..]) else Keys(d[1..]) + [k]
    requires Get(rest, k) == Some(v)
    requires forall k' :: k' != k ==> Get(rest, k') == Get(d[1..], k')
    requires UniqueKeys(d[1..]) ==> UniqueKeys(rest)
    ensures Keys([d[0]] + rest) == if k in Keys(d) then Keys(d) else Keys(d) + [k]
    ensures Get([d[0]] + rest, k) == Some(v)
    ensures forall k' :: k' != k ==> Get([d[0]] + rest, k') == Get(d, k')
    ensures UniqueKeys(d) ==> UniqueKeys([d[0]] + rest)
  {
    PutTailKeys(d, k, rest);
    var r := [d[0]] + rest;
    assert r[1..] == rest;
    assert d[1..] == d[1..];
    forall k' | k' != k ensures Get(r, k') == Get(d, k') {
      if k' != d[0].0 {
        assert Get(r, k') == Get(rest, k');
      }
    }
    PutConsUnique(d, k, rest);
  }

  lemma PutTailKeys<V>(d: seq<(string, V)>, k: string, rest: seq<(string, V)>)
    requires |d| > 0 && d[0].0 != k
    requires Keys(rest) == if k in Keys(d[1..]) then Keys(d[1..]) else Keys(d[1..]) + [k]
    ensures Keys([d[0]] + rest) == if k in Keys(d) then Keys(d) else Keys(d) + [k]
  {
    KeysCons(d[0], d[1..]);
    assert d == [d[0]] + d[1..];
    KeysCons(d[0], rest);
    if k in Keys(d[1..]) {
      assert k in Keys(d);
    } else {
      assert k !in Keys(d);
      assert [d[0].0] + (Keys(d[1..]) + [k]) == ([d[0].0] + Keys(d[1..])) + [k];
    }
  }

  lemma PutConsUnique<V>(d: seq<(string, V)>, k: string, rest: seq<(string, V)>)
    requires |d| > 0 && d[0].0 != k
    requires Keys(rest) == if k in Keys(d[1..]) then Keys(d[1..]) else Keys(d[1..]) + [k]
    requires UniqueKeys(d[1..]) ==> UniqueKeys(rest)
    ensures UniqueKeys(d) ==> UniqueKeys([d[0]] + rest)
  {
    if UniqueKeys(d) {
      assert UniqueKeys(d[1..]);
      var r := [d[0]] + rest;
      forall i, j | 0 <= i < j < |r| ensures r[i].0 != r[j].0 {
        if i == 0 {
          assert r[j].0 == Keys(rest)[j - 1];
          assert Keys(rest)[j - 1] in Keys(d[1..]) + [k];
          if Keys(rest)[j - 1] in Keys(d[1..]) {
            var m :| 0 <= m < |d[1..]| && Keys(d[1..])[m] == Keys(rest)[j - 1];
            assert d[m + 1].0 == r[j].0;
          }
        } else {
          ConsTail(d[0], rest, i);
          ConsTail(d[0], rest, j);
        }
      }
    }
  }

  /** `del d[k]` when present. */
  function Remove<V>(d: seq<(string, V)>, k: string): (r: seq<(string, V)>)
    ensures k !in Keys(r)
    ensures forall k' :: k' != k ==> Get(r, k') == Get(d, k')
    ensures forall i :: 0 <= i < |r| ==> r[i] in d
  {
    if |d| == 0 then []
    else if d[0].0 == k then Remove(d[1..], k)
    else
      var rest := Remove(d[1..], k);
      assert ([d[0]] + rest)[1..] == rest;
      [d[0]] + rest
  }

  /** `d.get(k, default)`. */
  function GetOr<V>(d: seq<(string, V)>, k: string, default: V): V
  {
    match Get(d, k)
    case Some(v) => v
    case None => default
  }

  /** The value under `k`, or `Null` (Python `None`) when `k` is absent. */
  function Field(d: Fields, k: string): Value
  {
    GetOr(d, k, Null)
  }

  /** Python truthiness. */
  predicate Truthy(v: Value)
  {
    match v
    case Null => false
    case Bool(b) => b
    case Int(i) => i != 0
    case Num(r) => r != 0.0
    case Str(s) => |s| > 0
    case Obj(f) => |f| > 0
    case Arr(a) => |a| > 0
  }

  /** A dict whose every key maps to `None`. */
  function NullFields(keys: seq<string>): (r: Fields)
    ensures Keys(r) == keys
    ensures forall k :: k in keys ==> Get(r, k) == Some(Null)
  {
    if |keys| == 0 then []
    else
      var rest := NullFields(keys[1..]);
      assert Keys([(keys[0], Null)] + rest) == [keys[0]] + Keys(rest);
      assert ([(keys[0], Null)] + rest)[1..] == rest;
      [(keys[0], Null)] + rest
  }

  /** The dict after the assignments `writes`, made one after another. */
  function PutAll<V>(d: seq<(string, V)>, writes: seq<(string, V)>): seq<(string, V)>
  {
    if |writes| == 0 then d
    else
      var last := writes[|writes| - 1];
      Put(PutAll(d, writes[..|writes| - 1]), last.0, last.1)
  }

  /** The value the last assignment to `k` in `writes` stores. */
  function LastGet<V>(writes: seq<(string, V)>, k: string): (r: Option<V>)
    ensures r.Some? <==> k in Keys(writes)
  {
    if |writes| == 0 then None
    else if writes[|writes| - 1].0 == k then Some(writes[|writes| - 1].1)
    else
      KeysInit(writes);
      LastGet(writes[..|writes| - 1], k)
  }

  /** The keys of `ks` not in `existing`, each once, in order of first appearance. */
  function NewKeys(ks: seq<string>, existing: seq<string>): seq<string>
  {
    if |ks| == 0 then []
    else
      var p := NewKeys(ks[..|ks| - 1], existing);
      var k := ks[|ks| - 1];
      if k in existing || k in p then p else p + [k]
  }

  lemma NewKeysMembers(ks: seq<string>, existing: seq<string>)
    ensures forall k :: k in NewKeys(ks, existing) <==> k in ks && k !in existing
  {
    if |ks| > 0 {
      NewKeysMembers(ks[..|ks| - 1], existing);
      assert ks == ks[..|ks| - 1] + [ks[|ks| - 1]];
    }
  }

  lemma NewKeysNone(ks: seq<string>, existing: seq<string>)
    requires forall k :: k in ks ==> k in existing
    ensures NewKeys(ks, existing) == []
  {
    if |ks| > 0 {
      NewKeysNone(ks[..|ks| - 1], existing);
    }
  }

  /**
   * `d.update(writes)` as a sequence of assignments: keys already present keep
   * their place, new keys follow in order of first assignment, and each key
   * holds the value of its last assignment.
   */
  lemma PutAllFacts<V>(d: seq<(string, V)>, writes: seq<(string, V)>)
    ensures Keys(PutAll(d, writes)) == Keys(d) + NewKeys(Keys(writes), Keys(d))
    ensures forall k :: Get(PutAll(d, writes), k) == if k in Keys(writes) then LastGet(writes, k) else Get(d, k)
    ensures UniqueKeys(d) ==> UniqueKeys(PutAll(d, writes))
  {
    PutAllKeys(d, writes);
    PutAllGets(d, writes);
  }

  lemma {:induction false} PutAllKeys<V>(d: seq<(string, V)>, writes: seq<(string, V)>)
    ensures Keys(PutAll(d, writes)) == Keys(d) + NewKeys(Keys(writes), Keys(d))
    ensures UniqueKeys(d) ==> UniqueKeys(PutAll(d, writes))
    decreases |writes|
  {
    if |writes| == 0 {
      AppendEmpty(Keys(d), NewKeys(Keys(writes), Keys(d)));
    } else {
      var n := |writes| - 1;
      PutAllKeys(d, writes[..n]);
      PutAllStep(d, writes);
      KeysInit(writes);
      AppendAssoc(Keys(d), NewKeys(Keys(writes[..n]), Keys(d)), [writes[n].0]);
    }
  }

  lemma {:induction false} PutAllGets<V>(d: seq<(string, V)>, writes: seq<(string, V)>)
    ensures forall k :: Get(PutAll(d, writes), k) == if k in Keys(writes) then LastGet(writes, k) else Get(d, k)
    decreases |writes|
  {
    if |writes| > 0 {
      var n := |writes| - 1;
      PutAllGets(d, writes[..n]);
      PutAllStep(d, writes);
      KeysInit(writes);
    }
  }

  /** The keys of all assignments but the last, and where the last one's key goes. */
  lemma KeysInit<V>(w: seq<(string, V)>)
    requires |w| > 0
    ensures Keys(w[..|w| - 1]) == Keys(w)[..|w| - 1]
    ensures Keys(w) == Keys(w[..|w| - 1]) + [w[|w| - 1].0]
  {
    var n := |w| - 1;
    var a, b := Keys(w[..n]), Keys(w);
    assert forall i :: 0 <= i < n ==> a[i] == b[..n][i];
    SnocEq(a, w[n].0, b);
  }

  lemma ConsTail<T>(x: T, s: seq<T>, i: nat)
    requires 0 < i <= |s|
    ensures ([x] + s)[i] == s[i - 1]
  {
  }

  lemma SnocEq<T>(a: seq<T>, x: T, b: seq<T>)
    requires |b| == |a| + 1 && b[|a|] == x && forall i :: 0 <= i < |a| ==> a[i] == b[..|a|][i]
    ensures a == b[..|a|] && b == a + [x]
  {
    assert forall i :: 0 <= i < |b| ==> b[i] == (a + [x])[i];
  }

  lemma AppendAssoc<T>(a: seq<T>, b: seq<T>, c: seq<T>)
    ensures a + (b + c) == a + b + c
  {
  }

  /** Applying two runs of assignments one after the other. */
  lemma {:induction false} PutAllConcat<V>(d: seq<(string, V)>, a: seq<(string, V)>, b: seq<(string, V)>)
    ensures PutAll(d, a + b) == PutAll(PutAll(d, a), b)
    decreases |b|
  {
    if |b| == 0 {
      AppendEmpty(a, b);
    } else {
      var n := |b| - 1;
      PutAllConcat(d, a, b[..n]);
      ConcatInit(a, b);
      PutAllStep(d, a + b);
      PutAllStep(PutAll(d, a), b);
    }
  }

  lemma AppendEmpty<T>(a: seq<T>, b: seq<T>)
    requires |b| == 0
    ensures a + b == a
  {
  }

  lemma ConcatInit<T>(a: seq<T>, b: seq<T>)
    requires |b| > 0
    ensures (a + b)[..|a + b| - 1] == a + b[..|b| - 1]
    ensures (a + b)[|a + b| - 1] == b[|b| - 1]
  {
  }

  lemma PutAllStep<V>(d: seq<(string, V)>, w: seq<(string, V)>)
    requires |w| > 0
    ensures PutAll(d, w) == Put(PutAll(d, w[..|w| - 1]), w[|w| - 1].0, w[|w| - 1].1)
  {
  }

  /** Appending one assignment is one more `Put`. */
  lemma PutAllSnoc<V>(d: seq<(string, V)>, a: seq<(string, V)>, k: string, v: V)
    ensures PutAll(d, a + [(k, v)]) == Put(PutAll(d, a), k, v)
  {
    assert (a + [(k, v)])[..|a|] == a;
  }

  /** The last assignment to `k` in `a + b` is in `b` when `b` assigns `k` at all. */
  lemma {:induction false} LastGetConcat<V>(a: seq<(string, V)>, b: seq<(string, V)>, k: string)
    ensures LastGet(a + b, k) == if LastGet(b, k).Some? then LastGet(b, k) else LastGet(a, k)
    decreases |b|
  {
    if |b| == 0 {
      assert a + b == a;
    } else if b[|b| - 1].0 != k {
      LastGetDrop(a, b, k);
      LastGetConcat(a, b[..|b| - 1], k);
    } else {
      LastGetEnd(a, b, k);
    }
  }

  lemma LastGetEnd<V>(a: seq<(string, V)>, b: seq<(string, V)>, k: string)
    requires |b| > 0 && b[|b| - 1].0 == k
    ensures LastGet(a + b, k) == LastGet(b, k)
  {
    var ab := a + b;
    assert ab[|ab| - 1] == b[|b| - 1];
  }

  lemma LastGetDrop<V>(a: seq<(string, V)>, b: seq<(string, V)>, k: string)
    requires |b| > 0 && b[|b| - 1].0 != k
    ensures LastGet(a + b, k) == LastGet(a + b[..|b| - 1], k)
  {
    var ab := a + b;
    assert ab[|ab| - 1] == b[|b| - 1];
    assert ab[..|ab| - 1] == a + b[..|b| - 1];
  }

  lemma NotWritten<V>(w: seq<(string, V)>, k: string)
    requires forall i :: 0 <= i < |w| ==> w[i].0 != k
    ensures k !in Keys(w)
  {
  }

  /** Assignments that never touch `k` leave its last assignment where it was. */
  lemma LastGetUntouched<V>(a: seq<(string, V)>, rest: seq<(string, V)>, k: string)
    requires forall i :: 0 <= i < |rest| ==> rest[i].0 != k
    ensures LastGet(a + rest, k) == LastGet(a, k)
  {
    NotWritten(rest, k);
    LastGetConcat(a, rest, k);
  }

  /** With distinct keys, the last assignment to an entry's key is that entry. */
  lemma {:induction false} LastGetEntry<V>(w: seq<(string, V)>, j: nat)
    requires j < |w| && UniqueKeys(w)
    ensures LastGet(w, w[j].0) == Some(w[j].1)
    decreases |w|
  {
    var n := |w| - 1;
    if j < n {
      assert w[..n][j] == w[j];
      LastGetEntry(w[..n], j);
    }
  }

  /** Runs of assignments made one run after another. */
  function Flatten<V>(parts: seq<seq<(string, V)>>): seq<(string, V)>
  {
    if |parts| == 0 then [] else Flatten(parts[..|parts| - 1]) + parts[|parts| - 1]
  }

  /** When only run `j` assigns `k`, the last assignment to `k` is that run's. */
  lemma {:induction false} LastGetOnly<V>(parts: seq<seq<(string, V)>>, j: nat, k: string)
    requires j < |parts|
    requires forall i :: 0 <= i < |parts| && i != j ==> k !in Keys(parts[i])
    ensures LastGet(Flatten(parts), k) == LastGet(parts[j], k)
    decreases |parts|
  {
    var n := |parts| - 1;
    var init := parts[..n];
    LastGetConcat(Flatten(init), parts[n], k);
    if j < n {
      assert init[j] == parts[j];
      LastGetOnly(init, j, k);
    } else {
      LastGetNone(Flatten(init), k, init);
    }
  }

  /** A run assembled from runs that never assign `k` does not assign it. */
  lemma {:induction false} LastGetNone<V>(w: seq<(string, V)>, k: string, parts: seq<seq<(string, V)>>)
    requires w == Flatten(parts)
    requires forall i :: 0 <= i < |parts| ==> k !in Keys(parts[i])
    ensures LastGet(w, k).None?
    decreases |parts|
  {
    if |parts| > 0 {
      var n := |parts| - 1;
      LastGetConcat(Flatten(parts[..n]), parts[n], k);
      assert forall i :: 0 <= i < n ==> parts[..n][i] == parts[i];
      LastGetNone(Flatten(parts[..n]), k, parts[..n]);
    }
  }

  /** Every assignment in `w` is to one of `keys`. */
  predicate Within<V>(w: seq<(string, V)>, keys: seq<string>)
  {
    forall i :: 0 <= i < |w| ==> w[i].0 in keys
  }

  /** Assigning only keys a dict already has keeps its keys and their order. */
  lemma PutAllKeep<V>(d: seq<(string, V)>, w: seq<(string, V)>)
    requires Within(w, Keys(d))
    ensures Keys(PutAll(d, w)) == Keys(d)
  {
    PutAllFacts(d, w);
    forall k | k in Keys(w) ensures k in Keys(d) {
      var i :| 0 <= i < |w| && Keys(w)[i] == k;
    }
    NewKeysNone(Keys(w), Keys(d));
  }

  lemma {:induction false} FlattenWithin<V>(parts: seq<seq<(string, V)>>, keys: seq<string>)
    requires forall i :: 0 <= i < |parts| ==> Within(parts[i], keys)
    ensures Within(Flatten(parts), keys)
    decreases |parts|
  {
    if |parts| > 0 {
      var n := |parts| - 1;
      assert forall i :: 0 <= i < n ==> parts[..n][i] == parts[i];
      FlattenWithin(parts[..n], keys);
      var a, b := Flatten(parts[..n]), parts[n];
      assert forall i :: 0 <= i < |a + b| ==> (a + b)[i] == if i < |a| then a[i] else b[i - |a|];
    }
  }

  lemma Flatten4<V>(a: seq<(string, V)>, b: seq<(string, V)>, c: seq<(string, V)>, d: seq<(string, V)>)
    ensures Flatten([a, b, c, d]) == a + b + c + d
  {
    var parts := [a, b, c, d];
    assert parts[..3] == [a, b, c] && [a, b, c][..2] == [a, b] && [a, b][..1] == [a] && [a][..0] == [];
    assert Flatten([a]) == a;
    assert Flatten([a, b]) == a + b;
    assert Flatten([a, b, c]) == a + b + c;
  }

  /** A property every assigned value has holds of the last value assigned to any key. */
  lemma {:induction false} LastGetAll<V>(w: seq<(string, V)>, k: string, P: V -> bool)
    requires forall i :: 0 <= i < |w| ==> P(w[i].1)
    ensures LastGet(w, k).Some? ==> P(LastGet(w, k).value)
    decreases |w|
  {
    if |w| > 0 && w[|w| - 1].0 != k {
      LastGetAll(w[..|w| - 1], k, P);
    }
  }

  /** A property every run's values have holds of the concatenated runs. */
  lemma {:induction false} FlattenAll<V>(parts: seq<seq<(string, V)>>, P: V -> bool)
    requires forall j, i :: 0 <= j < |parts| && 0 <= i < |parts[j]| ==> P(parts[j][i].1)
    ensures forall i :: 0 <= i < |Flatten(parts)| ==> P(Flatten(parts)[i].1)
    decreases |parts|
  {
    if |parts| > 0 {
      var n := |parts| - 1;
      var init := parts[..n];
      FlattenAll(init, P);
      var a, b := Flatten(init), parts[n];
      assert forall i :: 0 <= i < |a + b| ==> (a + b)[i] == if i < |a| then a[i] else b[i - |a|];
    }
  }

  lemma Flatten3<V>(a: seq<(string, V)>, b: seq<(string, V)>, c: seq<(string, V)>)
    ensures Flatten([a, b, c]) == a + b + c
  {
    assert [a, b, c][..2] == [a, b] && [a, b][..1] == [a] && [a][..0] == [];
    assert Flatten([a]) == a;
    assert Flatten([a, b]) == a + b;
  }

  /** Two assignments in a row are two `Put`s. */
  lemma PutAllPair<V>(d: seq<(string, V)>, w: seq<(string, V)>)
    requires |w| == 2
    ensures PutAll(d, w) == Put(Put(d, w[0].0, w[0].1), w[1].0, w[1].1)
  {
    PutAllStep(d, w);
    PutAllStep(d, w[..1]);
    assert w[..1][..0] == [] && w[..1][0] == w[0];
  }

  /** Three assignments in a row are three `Put`s. */
  lemma PutAllTriple<V>(d: seq<(string, V)>, w: seq<(string, V)>)
    requires |w| == 3
    ensures PutAll(d, w) == Put(Put(Put(d, w[0].0, w[0].1), w[1].0, w[1].1), w[2].0, w[2].1)
  {
    assert w[..2][..1][..0] == [];
    PutAllPair(d, w[..2]);
  }

  /** Three assignments written out. */
  lemma PutAllThree<V>(d: seq<(string, V)>, k1: string, v1: V, k2: string, v2: V, k3: string, v3: V)
    ensures PutAll(d, [(k1, v1), (k2, v2), (k3, v3)]) == Put(Put(Put(d, k1, v1), k2, v2), k3, v3)
  {
    PutAllTriple(d, [(k1, v1), (k2, v2), (k3, v3)]);
  }

  /** Four assignments written out. */
  lemma PutAllFour<V>(d: seq<(string, V)>, k1: string, v1: V, k2: string, v2: V, k3: string, v3: V, k4: string, v4: V)
    ensures PutAll(d, [(k1, v1), (k2, v2), (k3, v3), (k4, v4)]) == Put(Put(Put(Put(d, k1, v1), k2, v2), k3, v3), k4, v4)
  {
    var w := [(k1, v1), (k2, v2), (k3, v3), (k4, v4)];
    PutAllStep(d, w);
    assert w[..3] == [(k1, v1), (k2, v2), (k3, v3)];
    PutAllThree(d, k1, v1, k2, v2, k3, v3);
  }

  /** Two dicts with the same keys in the same order and the same value for every key are equal. */
  lemma {:induction false} SameEntries<V>(a: seq<(string, V)>, b: seq<(string, V)>)
    requires UniqueKeys(a) && Keys(a) == Keys(b)
    requires forall k :: Get(a, k) == Get(b, k)
    ensures a == b
    decreases |a|
  {
    if |a| > 0 {
      var k0 := a[0].0;
      assert Keys(a)[0] == k0 && Keys(b)[0] == b[0].0;
      assert Get(a, k0) == Some(a[0].1) && Get(b, k0) == Some(b[0].1);
      var a', b' := a[1..], b[1..];
      assert Keys(a') == Keys(a)[1..] && Keys(b') == Keys(b)[1..];
      assert UniqueKeys(a');
      assert k0 !in Keys(a') by {
        forall i | 0 <= i < |a'| ensures Keys(a')[i] != k0 {
          assert a'[i] == a[i + 1];
        }
      }
      forall k ensures Get(a', k) == Get(b', k) {
        if k != k0 {
          assert Get(a, k) == Get(a', k) && Get(b, k) == Get(b', k);
        }
      }
      SameEntries(a', b');
      assert a == [a[0]] + a' && b == [b[0]] + b';
    }
  }

  /** Assigning a key the dict does not hold appends it. */
  lemma {:induction false} PutNew<V>(d: seq<(string, V)>, k: string, v: V)
    requires forall i :: 0 <= i < |d| ==> d[i].0 != k
    ensures Put(d, k, v) == d + [(k, v)]
    decreases |d|
  {
    if |d| > 0 {
      PutNew(d[1..], k, v);
      ConsSnoc(d, (k, v));
    }
  }

  lemma ConsSnoc<T>(d: seq<T>, x: T)
    requires |d| > 0
    ensures [d[0]] + (d[1..] + [x]) == d + [x]
  {
    assert d == [d[0]] + d[1..];
  }

  /**
   * Two dicts with the same set of keys agree everywhere once every entry of
   * the first is found, with its value, in the second.
   */
  lemma SameGets<V>(a: seq<(string, V)>, b: seq<(string, V)>)
    requires UniqueKeys(a)
    requires forall k :: k in Keys(a) <==> k in Keys(b)
    requires forall j :: 0 <= j < |a| ==> Get(b, a[j].0) == Some(a[j].1)
    ensures forall k :: Get(a, k) == Get(b, k)
  {
    forall k ensures Get(a, k) == Get(b, k) {
      if k in Keys(a) {
        var j :| 0 <= j < |a| && Keys(a)[j] == k;
        GetIndex(a, j);
      }
    }
  }

  /** In a dict with distinct keys, the key at position `j` gets the value at `j`. */
  lemma {:induction false} GetIndex<V>(d: seq<(string, V)>, j: nat)
    requires UniqueKeys(d) && j < |d|
    ensures Get(d, d[j].0) == Some(d[j].1)
    decreases j
  {
    if j > 0 {
      assert d[1..][j - 1] == d[j];
      assert UniqueKeys(d[1..]);
      GetIndex(d[1..], j - 1);
    }
  }

  /** Assignments to keys that are new and pairwise distinct append them in order. */
  lemma {:induction false} PutAllFresh<V>(d: seq<(string, V)>, w: seq<(string, V)>)
    requires UniqueKeys(d + w)
    ensures PutAll(d, w) == d + w
    decreases |w|
  {
    if |w| > 0 {
      var n := |w| - 1;
      var w' := w[..n];
      assert d + w' == (d + w)[..|d| + n];
      PutAllFresh(d, w');
      assert forall i :: 0 <= i < |d + w'| ==> (d + w')[i] == (d + w)[i];
      assert (d + w)[|d| + n] == w[n];
      PutNew(d + w', w[n].0, w[n].1);
      SnocSplit(d, w);
    }
  }

  lemma SnocSplit<T>(a: seq<T>, w: seq<T>)
    requires |w| > 0
    ensures a + w[..|w| - 1] + [w[|w| - 1]] == a + w
  {
    assert w == w[..|w| - 1] + [w[|w| - 1]];
  }

  lemma UpdateCons<T>(d: seq<T>, j: nat, x: T)
    requires 0 < j < |d|
    ensures d[j := x] == [d[0]] + d[1..][j - 1 := x]
  {
  }

  /** Assigning a key the dict holds at position `j` replaces that entry in place. */
  lemma {:induction false} PutAt<V>(d: seq<(string, V)>, j: nat, k: string, v: V)
    requires j < |d| && d[j].0 == k
    requires forall i :: 0 <= i < j ==> d[i].0 != k
    ensures Put(d, k, v) == d[j := (k, v)]
    decreases j
  {
    if j > 0 {
      PutAt(d[1..], j - 1, k, v);
      UpdateCons(d, j, (k, v));
    } else {
      assert d[0 := (k, v)] == [(k, v)] + d[1..];
    }
  }

  /** Every entry of `d` satisfies `P`. */
  predicate AllEntries<V>(d: seq<(string, V)>, P: (string, V) -> bool)
  {
    forall j :: 0 <= j < |d| ==> P(d[j].0, d[j].1)
  }

  /** Assigning an entry that satisfies `P` keeps every entry satisfying `P`. */
  lemma {:induction false} PutEntries<V>(d: seq<(string, V)>, k: string, v: V, P: (string, V) -> bool)
    requires AllEntries(d, P) && P(k, v)
    ensures AllEntries(Put(d, k, v), P)
    decreases |d|
  {
    if |d| > 0 && d[0].0 != k {
      assert AllEntries(d[1..], P) by {
        forall j | 0 <= j < |d| - 1 ensures P(d[1..][j].0, d[1..][j].1) {
          assert d[1..][j] == d[j + 1];
        }
      }
      PutEntries(d[1..], k, v, P);
    }
  }
}
