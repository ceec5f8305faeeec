/**
 * A plain JavaScript object used as a dictionary (`obj[key] = v`,
 * `delete obj[key]`, `for (k in obj)`, `Object.keys(obj)`): its entries in
 * the order the keys were first inserted. Assigning to an existing key keeps
 * its position; deleting removes it.
 */
module JsObjects {
  import opened JsValues

  type Entries<V> = seq<(string, V)>

  function Keys<V>(e: Entries<V>): (ks: seq<string>)
    ensures |ks| == |e|
    ensures forall i :: 0 <= i < |e| ==> ks[i] == e[i].0
  {
    if e == [] then [] else [e[0].0] + Keys(e[1..])
  }

  /** No key occurs twice (every object satisfies this). */
  predicate UniqueKeys<V>(e: Entries<V>)
  {
    forall i, j :: 0 <= i < j < |e| ==> e[i].0 != e[j].0
  }

  predicate Has<V>(e: Entries<V>, k: string)
  {
    k in Keys(e)
  }

  /** `obj[k]`, None standing for `undefined`. */
  function Get<V>(e: Entries<V>, k: string): (r: Option<V>)
    ensures r.Some? <==> Has(e, k)
  {
    if e == [] then None
    else if e[0].0 == k then Some(e[0].1)
    else Get(e[1..], k)
  }

  /** `obj[k] = v`. */
  function Put<V>(e: Entries<V>, k: string, v: V): (r: Entries<V>)
  {
    if e == [] then [(k, v)]
    else if e[0].0 == k then [(k, v)] + e[1..]
    else [e[0]] + Put(e[1..], k, v)
  }

  /** `delete obj[k]`. */
  function Delete<V>(e: Entries<V>, k: string): (r: Entries<V>)
  {
    if e == [] then []
    else if e[0].0 == k then Delete(e[1..], k)
    else [e[0]] + Delete(e[1..], k)
  }

  // ---------------------------------------------------------------------------
  // Lemmas

  lemma {:induction false} HasIndex<V>(e: Entries<V>, k: string)
    ensures Has(e, k) <==> exists i :: 0 <= i < |e| && e[i].0 == k
  {
    if Has(e, k) {
      var ks := Keys(e);
      var i :| 0 <= i < |ks| && ks[i] == k;
      assert e[i].0 == k;
    }
  }

  lemma {:induction false} GetAt<V>(e: Entries<V>, i: nat)
    requires UniqueKeys(e) && i < |e|
    ensures Get(e, e[i].0) == Some(e[i].1)
  {
    if i > 0 {
      GetAt(e[1..], i - 1);
    }
  }

  /** Reading a key just written gives the written value; other keys are untouched. */
  lemma {:induction false} GetPut<V>(e: Entries<V>, k: string, v: V, k': string)
    ensures Get(Put(e, k, v), k') == if k' == k then Some(v) else Get(e, k')
  {
    if e != [] && e[0].0 != k {
      GetPut(e[1..], k, v, k');
    }
  }

  lemma {:induction false} GetDelete<V>(e: Entries<V>, k: string, k': string)
    ensures Get(Delete(e, k), k') == if k' == k then None else Get(e, k')
  {
    if e != [] {
      GetDelete(e[1..], k, k');
    }
  }

  /** Writing a new key appends it; writing an existing one keeps the order. */
  lemma {:induction false} KeysPut<V>(e: Entries<V>, k: string, v: V)
    ensures Keys(Put(e, k, v)) == if Has(e, k) then Keys(e) else Keys(e) + [k]
  {
    if e != [] && e[0].0 != k {
      KeysPut(e[1..], k, v);
      assert Keys(e) == [e[0].0] + Keys(e[1..]);
    }
  }

  lemma {:induction false} KeysDelete<V>(e: Entries<V>, k: string)
    ensures !Has(Delete(e, k), k)
    ensures forall k' :: k' != k ==> (Has(Delete(e, k), k') <==> Has(e, k'))
  {
    if e != [] {
      KeysDelete(e[1..], k);
      assert Keys(e) == [e[0].0] + Keys(e[1..]);
      var d := Delete(e[1..], k);
      if e[0].0 != k {
        assert Delete(e, k) == [e[0]] + d;
        assert Keys([e[0]] + d) == [e[0].0] + Keys(d);
      }
      forall k' | k' != k
        ensures Has(Delete(e, k), k') <==> Has(e, k')
      {
        assert Has(e, k') <==> k' == e[0].0 || Has(e[1..], k');
      }
    }
  }

  lemma PutUnique<V>(e: Entries<V>, k: string, v: V)
    requires UniqueKeys(e)
    ensures UniqueKeys(Put(e, k, v))
  {
    HasIndex(e, k);
    if Has(e, k) {
      var i :| 0 <= i < |e| && e[i].0 == k;
      PutAt(e, i, v);
      SameKeysUnique(e, e[..i] + [(k, v)] + e[i + 1..]);
    } else {
      AppendNewUnique(e, k, v);
      PutNewAppends(e, k, v);
    }
  }

  lemma SameKeysUnique<V>(e: Entries<V>, r: Entries<V>)
    requires UniqueKeys(e) && |r| == |e| && forall j :: 0 <= j < |e| ==> r[j].0 == e[j].0
    ensures UniqueKeys(r)
  {
  }

  lemma {:induction false} DeleteUnique<V>(e: Entries<V>, k: string)
    requires UniqueKeys(e)
    ensures UniqueKeys(Delete(e, k))
  {
    if e != [] {
      DeleteUnique(e[1..], k);
      var r := Delete(e[1..], k);
      KeysDelete(e[1..], k);
      forall j | 0 <= j < |r|
        ensures r[j].0 != e[0].0
      {
        assert Keys(r)[j] == r[j].0;
        assert Has(r, r[j].0);
        HasIndex(e[1..], r[j].0);
      }
    }
  }

  /** Assignment to the key at position i replaces that entry in place. */
  lemma {:induction false} PutAt<V>(e: Entries<V>, i: nat, v: V)
    requires UniqueKeys(e) && i < |e|
    ensures Put(e, e[i].0, v) == e[..i] + [(e[i].0, v)] + e[i + 1..]
  {
    if i > 0 {
      PutAt(e[1..], i - 1, v);
      assert e[1..][..i - 1] == e[1..i];
      assert e[1..][i..] == e[i + 1..];
    }
  }

  /** Deleting the key at position i removes exactly that entry. */
  lemma {:induction false} DeleteAt<V>(e: Entries<V>, i: nat)
    requires UniqueKeys(e) && i < |e|
    ensures Delete(e, e[i].0) == e[..i] + e[i + 1..]
  {
    if i > 0 {
      DeleteAt(e[1..], i - 1);
      assert e[1..][..i - 1] == e[1..i];
      assert e[1..][i..] == e[i + 1..];
    } else {
      DeleteAbsent(e[1..], e[0].0);
    }
  }

  lemma {:induction false} DeleteAbsent<V>(e: Entries<V>, k: string)
    requires forall j :: 0 <= j < |e| ==> e[j].0 != k
    ensures Delete(e, k) == e
  {
    if e != [] {
      DeleteAbsent(e[1..], k);
    }
  }

  /** `obj[k]` on a concatenation looks in the first part first. */
  lemma {:induction false} GetAppend<V>(a: Entries<V>, b: Entries<V>, k: string)
    ensures Get(a + b, k) == if Has(a, k) then Get(a, k) else Get(b, k)
  {
    if a != [] {
      assert (a + b)[1..] == a[1..] + b;
      GetAppend(a[1..], b, k);
    } else {
      assert a + b == b;
    }
  }

  /** Writing a key that is not there appends it. */
  lemma {:induction false} PutNewAppends<V>(e: Entries<V>, k: string, v: V)
    requires !Has(e, k)
    ensures Put(e, k, v) == e + [(k, v)]
  {
    if e != [] {
      assert Keys(e) == [e[0].0] + Keys(e[1..]);
      PutNewAppends(e[1..], k, v);
      assert e == [e[0]] + e[1..];
    }
  }

  /** Writing a key whose only entry follows `a` replaces that entry in place. */
  lemma {:induction false} PutAfter<V>(a: Entries<V>, k: string, old_v: V, b: Entries<V>, v: V)
    requires !Has(a, k)
    ensures Put(a + ([(k, old_v)] + b), k, v) == a + [(k, v)] + b
  {
    if a != [] {
      var e := a + ([(k, old_v)] + b);
      assert Keys(a) == [a[0].0] + Keys(a[1..]);
      assert e[0] == a[0] && e[1..] == a[1..] + ([(k, old_v)] + b);
      PutAfter(a[1..], k, old_v, b, v);
      assert Put(e, k, v) == [a[0]] + (a[1..] + [(k, v)] + b);
      assert a == [a[0]] + a[1..];
    } else {
      assert a + ([(k, old_v)] + b) == [(k, old_v)] + b;
    }
  }

  /** Deleting a key whose only entry follows `a` removes that entry. */
  lemma {:induction false} DeleteAfter<V>(a: Entries<V>, k: string, old_v: V, b: Entries<V>)
    requires !Has(a, k) && !Has(b, k)
    ensures Delete(a + ([(k, old_v)] + b), k) == a + b
  {
    if a != [] {
      var e := a + ([(k, old_v)] + b);
      assert Keys(a) == [a[0].0] + Keys(a[1..]);
      assert e[0] == a[0] && e[1..] == a[1..] + ([(k, old_v)] + b);
      DeleteAfter(a[1..], k, old_v, b);
      assert Delete(e, k) == [a[0]] + (a[1..] + b);
      assert a == [a[0]] + a[1..];
    } else {
      assert a + ([(k, old_v)] + b) == [(k, old_v)] + b;
      HasIndex(b, k);
      DeleteAbsent(b, k);
    }
  }

  lemma AppendNewUnique<V>(e: Entries<V>, k: string, v: V)
    requires UniqueKeys(e) && !Has(e, k)
    ensures UniqueKeys(e + [(k, v)])
  {
    HasIndex(e, k);
  }

}
