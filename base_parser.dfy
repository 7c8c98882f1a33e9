/** The helpers every parser shares: boolean conversion, pattern extraction and key reordering. */
module BaseParser {
  import opened Common
  import opened Text
  import opened Json

  /** `convert_to_bool`: a text is true exactly when it spells "true" in any letter case. */
  function ConvertToBool(value: string): (r: bool)
    ensures r <==> |value| == 4 && forall i :: 0 <= i < 4 ==> LowerChar(value[i]) == "true"[i]
  {
    Lower(value) == "true"
  }

  /**
   * `extract_with_pattern`: the first capture of `pattern`, stripped and passed
   * through `conversion` when one is given; `default` when the pattern finds
   * nothing. `pattern` stands for the search with its group and flags.
   */
  function ExtractWithPattern(content: string, pattern: string -> Option<string>, default: Value,
                              conversion: Option<string -> Value>): (r: Value)
    ensures pattern(content).None? ==> r == default
    ensures pattern(content).Some? && conversion.None? ==>
              r == Str(Strip(pattern(content).value)) && Trimmed(r.s)
    ensures pattern(content).Some? && conversion.Some? ==>
              r == conversion.value(Strip(pattern(content).value))
  {
    match pattern(content)
    case None => default
    case Some(g) =>
      var text := Strip(g);
      match conversion
      case Some(f) => f(text)
      case None => Str(text)
  }

  /**
   * Without a conversion, the extracted text is a piece of the capture, and
   * stripping it again changes nothing.
   */
  lemma ExtractedText(content: string, pattern: string -> Option<string>, default: Value, g: string)
    returns (off: nat)
    requires pattern(content) == Some(g)
    ensures var r := ExtractWithPattern(content, pattern, default, None);
      r.Str? && off + |r.s| <= |g| && r.s == g[off..off + |r.s|] && Strip(r.s) == r.s
  {
    var r := Strip(g);
    assert ExtractWithPattern(content, pattern, default, None) == Str(r);
    off := StripSlice(g);
    StripTrimmed(r);
  }

  /** The keys of `order` that `keys` holds, each once, in the order `order` names them. */
  function OrderedPresent(order: seq<string>, keys: seq<string>): seq<string>
  {
    if |order| == 0 then []
    else
      var p := OrderedPresent(order[..|order| - 1], keys);
      var k := order[|order| - 1];
      if k in keys && k !in p then p + [k] else p
  }

  /** The keys of `keys` that `order` does not name, in their own order. */
  function Unlisted(keys: seq<string>, order: seq<string>): seq<string>
  {
    if |keys| == 0 then []
    else
      var p := Unlisted(keys[..|keys| - 1], order);
      var k := keys[|keys| - 1];
      if k !in order then p + [k] else p
  }

  lemma OrderedPresentMembers(order: seq<string>, keys: seq<string>)
    ensures forall k :: k in OrderedPresent(order, keys) <==> k in order && k in keys
  {
    if |order| > 0 {
      OrderedPresentMembers(order[..|order| - 1], keys);
      assert order == order[..|order| - 1] + [order[|order| - 1]];
    }
  }

  lemma UnlistedMembers(keys: seq<string>, order: seq<string>)
    ensures forall k :: k in Unlisted(keys, order) <==> k in keys && k !in order
  {
    if |keys| > 0 {
      UnlistedMembers(keys[..|keys| - 1], order);
      assert keys == keys[..|keys| - 1] + [keys[|keys| - 1]];
    }
  }

  /** No key of `order` is present: nothing is listed. */
  lemma {:induction false} OrderedPresentNone(order: seq<string>, keys: seq<string>)
    requires forall i :: 0 <= i < |order| ==> order[i] !in keys
    ensures OrderedPresent(order, keys) == []
    decreases |order|
  {
    if |order| > 0 {
      OrderedPresentNone(order[..|order| - 1], keys);
    }
  }

  /**
   * With distinct keys in `order`, of which the first `m` are absent and the
   * rest present, the listed part is `order[m..]`.
   */
  lemma {:induction false} OrderedPresentSuffix(order: seq<string>, keys: seq<string>, m: nat)
    requires m <= |order|
    requires forall i, j :: 0 <= i < j < |order| ==> order[i] != order[j]
    requires forall i :: 0 <= i < m ==> order[i] !in keys
    requires forall i :: m <= i < |order| ==> order[i] in keys
    ensures OrderedPresent(order, keys) == order[m..]
    decreases |order|
  {
    if |order| == m {
      OrderedPresentNone(order, keys);
    } else {
      var n := |order| - 1;
      OrderedPresentSuffix(order[..n], keys, m);
      assert order[n] !in order[..n][m..];
      assert order[m..] == order[..n][m..] + [order[n]];
    }
  }

  /** Every key is listed in `order`: nothing is left over. */
  lemma {:induction false} UnlistedNone(keys: seq<string>, order: seq<string>)
    requires forall i :: 0 <= i < |keys| ==> keys[i] in order
    ensures Unlisted(keys, order) == []
    decreases |keys|
  {
    if |keys| > 0 {
      UnlistedNone(keys[..|keys| - 1], order);
    }
  }


  /** What the first loop of `reorder_json` has built after `i` turns. */
  ghost predicate ListedSoFar(data: Fields, order: seq<string>, i: nat, r: Fields)
  {
    i <= |order| &&
    Keys(r) == OrderedPresent(order[..i], Keys(data)) &&
    (forall k :: Get(r, k) == if k in order[..i] then Get(data, k) else None) &&
    UniqueKeys(r)
  }

  lemma ListedInit(data: Fields, order: seq<string>)
    ensures ListedSoFar(data, order, 0, [])
  {
    assert order[..0] == [];
  }

  /** One turn of the first loop of `reorder_json`. */
  lemma ListedStep(data: Fields, order: seq<string>, i: nat, r: Fields, r': Fields)
    requires i < |order| && ListedSoFar(data, order, i, r)
    requires r' == match Get(data, order[i]) case Some(v) => Put(r, order[i], v) case None => r
    ensures ListedSoFar(data, order, i + 1, r')
  {
    ListedStepKeys(data, order, i, r, r');
    ListedStepGets(data, order, i, r, r');
  }

  lemma ListedStepGets(data: Fields, order: seq<string>, i: nat, r: Fields, r': Fields)
    requires i < |order|
    requires forall k :: Get(r, k) == if k in order[..i] then Get(data, k) else None
    requires r' == match Get(data, order[i]) case Some(v) => Put(r, order[i], v) case None => r
    ensures forall k :: Get(r', k) == if k in order[..i + 1] then Get(data, k) else None
  {
    TakeStep(order, i);
  }

  lemma ListedStepKeys(data: Fields, order: seq<string>, i: nat, r: Fields, r': Fields)
    requires i < |order| && Keys(r) == OrderedPresent(order[..i], Keys(data)) && UniqueKeys(r)
    requires r' == match Get(data, order[i]) case Some(v) => Put(r, order[i], v) case None => r
    ensures Keys(r') == OrderedPresent(order[..i + 1], Keys(data)) && UniqueKeys(r')
  {
    TakeStep(order, i);
  }

  lemma TakeSnoc<T>(s: seq<T>, i: nat)
    requires i < |s|
    ensures s[..i + 1] == s[..i] + [s[i]]
  {
  }

  /** The first `i + 1` elements: the first `i` and the element at `i`. */
  lemma TakeStep<T>(s: seq<T>, i: nat)
    requires i < |s|
    ensures |s[..i + 1]| == i + 1 && s[..i + 1][..i] == s[..i] && s[..i + 1][i] == s[i]
    ensures forall x :: x in s[..i + 1] <==> x in s[..i] || x == s[i]
  {
    assert s[..i + 1] == s[..i] + [s[i]];
  }

  lemma ListedDone(data: Fields, order: seq<string>, r: Fields)
    requires ListedSoFar(data, order, |order|, r)
    ensures Keys(r) == OrderedPresent(order, Keys(data))
    ensures forall k :: Get(r, k) == if k in order then Get(data, k) else None
    ensures UniqueKeys(r)
  {
    assert order[..|order|] == order;
  }

  /** The key a turn of the second loop of `reorder_json` appends is new. */
  lemma UnlistedFresh(data: Fields, order: seq<string>, present: seq<string>, j: nat, r: Fields)
    requires UniqueKeys(data) && j < |data|
    requires forall k :: k in present ==> k in order
    requires Keys(r) == present + Unlisted(Keys(data)[..j], order)
    requires data[j].0 !in order
    ensures data[j].0 !in Keys(r)
  {
    UnlistedMembers(Keys(data)[..j], order);
  }

  lemma UnlistedSnoc(prefix: seq<string>, k: string, order: seq<string>)
    ensures Unlisted(prefix + [k], order) == if k !in order then Unlisted(prefix, order) + [k] else Unlisted(prefix, order)
  {
    assert (prefix + [k])[..|prefix|] == prefix;
  }

  /** A turn of the second loop of `reorder_json` that appends an unlisted key. */
  lemma UnlistedAppend(keys: seq<string>, order: seq<string>, present: seq<string>, j: nat, r: Fields, v: Value)
    requires j < |keys|
    requires Keys(r) == present + Unlisted(keys[..j], order)
    requires keys[j] !in order && keys[j] !in Keys(r)
    ensures Keys(Put(r, keys[j], v)) == present + Unlisted(keys[..j + 1], order)
  {
    TakeSnoc(keys, j);
    UnlistedSnoc(keys[..j], keys[j], order);
  }

  /** A turn of the second loop of `reorder_json` that skips a listed key. */
  lemma UnlistedSkip(keys: seq<string>, order: seq<string>, present: seq<string>, j: nat, r: Fields)
    requires j < |keys|
    requires Keys(r) == present + Unlisted(keys[..j], order)
    requires keys[j] in order
    ensures Keys(r) == present + Unlisted(keys[..j + 1], order)
  {
    TakeSnoc(keys, j);
    UnlistedSnoc(keys[..j], keys[j], order);
  }

  /** One turn of the second loop of `reorder_json`, for the values. */
  lemma UnlistedGetStep(data: Fields, order: seq<string>, j: nat, r: Fields, r': Fields)
    requires UniqueKeys(data) && j < |data|
    requires forall k :: Get(r, k) == if k in order || k in Keys(data)[..j] then Get(data, k) else None
    requires r' == if data[j].0 !in order then Put(r, data[j].0, data[j].1) else r
    ensures forall k :: Get(r', k) == if k in order || k in Keys(data)[..j + 1] then Get(data, k) else None
  {
    TakeStep(Keys(data), j);
    GetIndex(data, j);
  }

  /** The first loop of `reorder_json`: copy the listed keys that are present, in listed order. */
  method CopyListed(data: Fields, order: seq<string>) returns (r: Fields)
    ensures Keys(r) == OrderedPresent(order, Keys(data))
    ensures forall k :: Get(r, k) == if k in order then Get(data, k) else None
    ensures UniqueKeys(r)
  {
    r := [];
    var i := 0;
    ListedInit(data, order);
    while i < |order|
      invariant ListedSoFar(data, order, i, r)
    {
      var r0 := r;
      match Get(data, order[i]) {
        case Some(v) => r := Put(r, order[i], v);
        case None =>
      }
      ListedStep(data, order, i, r0, r);
      i := i + 1;
    }
    ListedDone(data, order, r);
  }

  /** The second loop of `reorder_json`: append every unlisted key, in its original order. */
  method AppendUnlisted(data: Fields, order: seq<string>, listed: Fields) returns (r: Fields)
    requires ListedPart(data, order, listed)
    ensures Keys(r) == Keys(listed) + Unlisted(Keys(data), order)
    ensures forall k :: Get(r, k) == Get(data, k)
    ensures UniqueKeys(r)
  {
    r := listed;
    ghost var present := Keys(listed);
    var j := 0;
    UnlistedInit(data, order, listed);
    while j < |data|
      invariant j <= |data| && UnlistedSoFar(data, order, present, j, r)
    {
      r := UnlistedTurn(data, order, present, j, r);
      j := j + 1;
    }
    UnlistedDone(data, order, present, r);
  }

  /** The body of the second loop of `reorder_json`: a key `order` does not name is added. */
  method UnlistedTurn(data: Fields, order: seq<string>, ghost present: seq<string>, j: nat, r: Fields)
    returns (r': Fields)
    requires j < |data| && UnlistedSoFar(data, order, present, j, r)
    ensures UnlistedSoFar(data, order, present, j + 1, r')
  {
    if data[j].0 !in order {
      r' := Put(r, data[j].0, data[j].1);
    } else {
      r' := r;
    }
    UnlistedStep(data, order, present, j, r, r');
  }

  /** What the second loop of `reorder_json` has built after `j` turns. */
  ghost predicate UnlistedSoFar(data: Fields, order: seq<string>, present: seq<string>, j: nat, r: Fields)
  {
    j <= |data| && UniqueKeys(data) && (forall k :: k in present ==> k in order) &&
    Keys(r) == present + Unlisted(Keys(data)[..j], order) &&
    (forall k :: Get(r, k) == if k in order || k in Keys(data)[..j] then Get(data, k) else None) &&
    UniqueKeys(r)
  }

  /** `listed` holds exactly the keys of `data` that `order` names, with their values. */
  ghost predicate ListedPart(data: Fields, order: seq<string>, listed: Fields)
  {
    UniqueKeys(data) && UniqueKeys(listed) &&
    (forall k :: k in Keys(listed) ==> k in order) &&
    (forall k :: Get(listed, k) == if k in order then Get(data, k) else None)
  }

  lemma UnlistedInit(data: Fields, order: seq<string>, listed: Fields)
    requires ListedPart(data, order, listed)
    ensures UnlistedSoFar(data, order, Keys(listed), 0, listed)
  {
    assert Keys(data)[..0] == [];
    AppendEmpty(Keys(listed), Unlisted(Keys(data)[..0], order));
  }

  /** One turn of the second loop of `reorder_json`. */
  lemma UnlistedStep(data: Fields, order: seq<string>, present: seq<string>, j: nat, r: Fields, r': Fields)
    requires j < |data| && UnlistedSoFar(data, order, present, j, r)
    requires r' == if data[j].0 !in order then Put(r, data[j].0, data[j].1) else r
    ensures UnlistedSoFar(data, order, present, j + 1, r')
  {
    if data[j].0 !in order {
      UnlistedFresh(data, order, present, j, r);
      UnlistedAppend(Keys(data), order, present, j, r, data[j].1);
    } else {
      UnlistedSkip(Keys(data), order, present, j, r);
    }
    UnlistedGetStep(data, order, j, r, r');
  }

  lemma UnlistedDone(data: Fields, order: seq<string>, present: seq<string>, r: Fields)
    requires UnlistedSoFar(data, order, present, |data|, r)
    ensures Keys(r) == present + Unlisted(Keys(data), order)
    ensures forall k :: Get(r, k) == Get(data, k)
    ensures UniqueKeys(r)
  {
    assert Keys(data)[..|data|] == Keys(data);
    forall k ensures Get(r, k) == Get(data, k) {
      if k !in order && k !in Keys(data) {
        assert Get(data, k).None?;
      }
    }
  }

  /**
   * `reorder_json`: the keys `order` names come first, in that order, then every
   * other key in its original order; the dict itself (keys and values) is unchanged.
   */
  method ReorderJson(data: Fields, order: seq<string>) returns (r: Fields)
    requires UniqueKeys(data)
    ensures Keys(r) == OrderedPresent(order, Keys(data)) + Unlisted(Keys(data), order)
    ensures forall k :: Get(r, k) == Get(data, k)
    ensures UniqueKeys(r)
  {
    var listed := CopyListed(data, order);
    OrderedPresentMembers(order, Keys(data));
    r := AppendUnlisted(data, order, listed);
  }
}
