/**
 * Python keyword arguments and attribute dictionaries as ordered lists of
 * (name, value) pairs: how `f(**kwargs)` binds names to parameters, what
 * reaches a `**kwargs` parameter, and how `setattr` updates `vars(obj)`.
 */
module Keywords {
  import opened Wrappers

  /** The names of an argument list or attribute dictionary, in order. */
  function Keys<V>(kvs: seq<(string, V)>): (ks: seq<string>)
    ensures |ks| == |kvs|
    ensures forall i :: 0 <= i < |kvs| ==> ks[i] == kvs[i].0
  {
    seq(|kvs|, i requires 0 <= i < |kvs| => kvs[i].0)
  }

  lemma KeysConcat<V>(a: seq<(string, V)>, b: seq<(string, V)>)
    ensures Keys(a + b) == Keys(a) + Keys(b)
  {
  }

  predicate HasKey<V>(kvs: seq<(string, V)>, k: string) {
    k in Keys(kvs)
  }

  predicate Distinct(ks: seq<string>) {
    forall i, j :: 0 <= i < j < |ks| ==> ks[i] != ks[j]
  }

  /** The position of the first entry named k. */
  function KeyIndex<V>(kvs: seq<(string, V)>, k: string): (r: Option<nat>)
    ensures r.Some? ==> r.value < |kvs| && kvs[r.value].0 == k
    ensures r.Some? ==> forall j :: 0 <= j < r.value ==> kvs[j].0 != k
    ensures r.None? <==> !HasKey(kvs, k)
  {
    if kvs == [] then None
    else if kvs[0].0 == k then Some(0)
    else
      match KeyIndex(kvs[1..], k)
      case None => (assert Keys(kvs) == [kvs[0].0] + Keys(kvs[1..]); None)
      case Some(i) => Some(i + 1)
  }

  /** `d[k]` when k is present. */
  function Lookup<V>(kvs: seq<(string, V)>, k: string): (r: Option<V>)
    ensures r.Some? <==> HasKey(kvs, k)
  {
    match KeyIndex(kvs, k)
    case None => None
    case Some(i) => Some(kvs[i].1)
  }

  /** What `d[k]` finds is an entry of d. */
  lemma LookupMember<V>(kvs: seq<(string, V)>, k: string)
    requires HasKey(kvs, k)
    ensures (k, Lookup(kvs, k).value) in kvs
  {
    var i := KeyIndex(kvs, k).value;
    assert kvs[i] == (k, Lookup(kvs, k).value);
  }

  /** A named parameter's value: the keyword of that name, else the default. */
  function Arg<V>(args: seq<(string, V)>, name: string, default: V): V {
    Lookup(args, name).GetOr(default)
  }

  /** KeyIndex looks at names only. */
  lemma {:induction false} KeyIndexSameKeys<V, W>(a: seq<(string, V)>, b: seq<(string, W)>, k: string)
    requires Keys(a) == Keys(b)
    ensures KeyIndex(a, k) == KeyIndex(b, k)
  {
    if a != [] {
      assert a[0].0 == Keys(a)[0] == Keys(b)[0] == b[0].0;
      assert Keys(a[1..]) == Keys(a)[1..];
      assert Keys(b[1..]) == Keys(b)[1..];
      KeyIndexSameKeys(a[1..], b[1..], k);
    }
  }

  lemma {:induction false} KeyIndexAppend<V>(a: seq<(string, V)>, x: (string, V), k: string)
    ensures KeyIndex(a + [x], k) ==
      if HasKey(a, k) then KeyIndex(a, k) else if x.0 == k then Some(|a|) else None
  {
    assert Keys(a + [x]) == Keys(a) + [x.0];
    if a != [] {
      assert (a + [x])[1..] == a[1..] + [x];
      assert Keys(a) == [a[0].0] + Keys(a[1..]);
      KeyIndexAppend(a[1..], x, k);
    }
  }

  /**
   * `setattr(obj, k, v)` on `vars(obj)`: an existing attribute keeps its
   * place and takes the new value, a new one is appended.
   */
  function SetAttr<V>(attrs: seq<(string, V)>, k: string, v: V): (r: seq<(string, V)>)
    ensures HasKey(attrs, k) ==> Keys(r) == Keys(attrs)
    ensures !HasKey(attrs, k) ==> r == attrs + [(k, v)]
  {
    match KeyIndex(attrs, k)
    case Some(i) =>
      var r := attrs[i := (k, v)];
      assert Keys(r) == Keys(attrs);
      r
    case None => attrs + [(k, v)]
  }

  /** After `setattr(obj, k, v)`, k holds v and every other name keeps its value. */
  lemma SetAttrLookup<V>(attrs: seq<(string, V)>, k: string, v: V, k': string)
    ensures Lookup(SetAttr(attrs, k, v), k') == if k' == k then Some(v) else Lookup(attrs, k')
  {
    var r := SetAttr(attrs, k, v);
    match KeyIndex(attrs, k)
    case Some(i) =>
      KeyIndexSameKeys(r, attrs, k');
    case None =>
      KeyIndexAppend(attrs, (k, v), k');
  }

  /** `for key, value in kvs: setattr(obj, key, value)` */
  function SetAttrs<V>(attrs: seq<(string, V)>, kvs: seq<(string, V)>): seq<(string, V)> {
    if kvs == [] then attrs
    else
      var last := kvs[|kvs| - 1];
      SetAttr(SetAttrs(attrs, kvs[..|kvs| - 1]), last.0, last.1)
  }

  /** With no name repeated, each setattr appends: the attributes are the old ones followed by kvs. */
  lemma {:induction false} SetAttrsAppend<V>(attrs: seq<(string, V)>, kvs: seq<(string, V)>)
    requires Distinct(Keys(attrs + kvs))
    ensures SetAttrs(attrs, kvs) == attrs + kvs
  {
    if kvs != [] {
      var n := |kvs| - 1;
      var init := kvs[..n];
      assert attrs + kvs == (attrs + init) + [kvs[n]];
      assert Keys(attrs + init) == Keys(attrs + kvs)[..|attrs| + n];
      SetAttrsAppend(attrs, init);
      assert !HasKey(attrs + init, kvs[n].0) by {
        forall j | 0 <= j < |attrs + init| ensures Keys(attrs + init)[j] != kvs[n].0 {
          assert Keys(attrs + kvs)[j] == Keys(attrs + init)[j];
          assert Keys(attrs + kvs)[|attrs| + n] == kvs[n].0;
        }
      }
    }
  }

  /** After the loop, each name in kvs holds its value from kvs; every other name keeps its old one. */
  lemma {:induction false} LookupSetAttrs<V>(attrs: seq<(string, V)>, kvs: seq<(string, V)>, k: string)
    requires Distinct(Keys(kvs))
    ensures Lookup(SetAttrs(attrs, kvs), k) == if HasKey(kvs, k) then Lookup(kvs, k) else Lookup(attrs, k)
  {
    if kvs != [] {
      var n := |kvs| - 1;
      var init := kvs[..n];
      assert kvs == init + [kvs[n]];
      assert Keys(init) == Keys(kvs)[..n];
      assert Keys(kvs) == Keys(init) + [kvs[n].0];
      LookupSetAttrs(attrs, init, k);
      KeyIndexAppend(init, kvs[n], k);
      SetAttrLookup(SetAttrs(attrs, init), kvs[n].0, kvs[n].1, k);
    }
  }

  /**
   * The keyword arguments that no named parameter takes, in call order:
   * what a `**kwargs` parameter receives.
   */
  function Unbound<V>(args: seq<(string, V)>, params: seq<string>): (r: seq<(string, V)>)
    ensures forall i :: 0 <= i < |r| ==> r[i] in args && r[i].0 !in params
    ensures |r| <= |args|
  {
    if args == [] then []
    else
      var n := |args| - 1;
      var rest := Unbound(args[..n], params);
      assert args == args[..n] + [args[n]];
      if args[n].0 in params then rest else rest + [args[n]]
  }

  /** A name that no parameter takes reaches `**kwargs` with its value; a parameter's name does not. */
  lemma {:induction false} UnboundLookup<V>(args: seq<(string, V)>, params: seq<string>, k: string)
    ensures Lookup(Unbound(args, params), k) == if k in params then None else Lookup(args, k)
  {
    if args != [] {
      var n := |args| - 1;
      assert args == args[..n] + [args[n]];
      UnboundLookup(args[..n], params, k);
      var rest := Unbound(args[..n], params);
      KeyIndexAppend(args[..n], args[n], k);
      if args[n].0 !in params {
        KeyIndexAppend(rest, args[n], k);
      }
    }
  }

  lemma {:induction false} UnboundDistinct<V>(args: seq<(string, V)>, params: seq<string>)
    requires Distinct(Keys(args))
    ensures Distinct(Keys(Unbound(args, params)))
  {
    if args != [] {
      var n := |args| - 1;
      assert Keys(args[..n]) == Keys(args)[..n];
      UnboundDistinct(args[..n], params);
      var rest := Unbound(args[..n], params);
      if args[n].0 !in params {
        var r := rest + [args[n]];
        forall i, j | 0 <= i < j < |r| ensures Keys(r)[i] != Keys(r)[j] {
          if j == |rest| {
            assert rest[i] in args[..n];
            var m :| 0 <= m < n && args[..n][m] == rest[i];
            assert Keys(args)[m] != Keys(args)[n];
          } else {
            assert Keys(r)[i] == Keys(rest)[i] && Keys(r)[j] == Keys(rest)[j];
          }
        }
      }
    }
  }

  lemma {:induction false} UnboundTwice<V>(args: seq<(string, V)>, first: seq<string>, second: seq<string>)
    ensures Unbound(Unbound(args, first), second) == Unbound(args, first + second)
  {
    if args != [] {
      var n := |args| - 1;
      UnboundTwice(args[..n], first, second);
      var inner := Unbound(args[..n], first);
      if args[n].0 !in first {
        assert (inner + [args[n]])[..|inner|] == inner;
      }
    }
  }


  /** A lookup in a concatenation finds the first part's entry before the second's. */
  lemma {:induction false} LookupConcat<V>(a: seq<(string, V)>, b: seq<(string, V)>, k: string)
    ensures Lookup(a + b, k) == if HasKey(a, k) then Lookup(a, k) else Lookup(b, k)
  {
    if a == [] {
      assert a + b == b;
    } else if a[0].0 == k {
      assert Keys(a)[0] == k;
    } else {
      assert (a + b)[1..] == a[1..] + b;
      assert Keys(a) == [a[0].0] + Keys(a[1..]);
      LookupConcat(a[1..], b, k);
      LookupTail(a, k);
      LookupTail(a + b, k);
    }
  }

  /** Past a first entry of another name, a lookup goes on in the rest. */
  lemma LookupTail<V>(kvs: seq<(string, V)>, k: string)
    requires kvs != [] && kvs[0].0 != k
    ensures Lookup(kvs, k) == Lookup(kvs[1..], k)
  {
    match KeyIndex(kvs[1..], k)
    case None =>
    case Some(i) => assert kvs[1..][i] == kvs[i + 1];
  }

  /** Two lists of distinct names with no name in common join into a list of distinct names. */
  lemma DistinctConcat<V>(a: seq<(string, V)>, b: seq<(string, V)>)
    requires Distinct(Keys(a)) && Distinct(Keys(b))
    requires forall i :: 0 <= i < |b| ==> Keys(b)[i] !in Keys(a)
    ensures Distinct(Keys(a + b))
  {
    KeysConcat(a, b);
    var ks := Keys(a + b);
    forall i, j | 0 <= i < j < |ks| ensures ks[i] != ks[j] {
      if j >= |a| && i < |a| {
        assert ks[j] == Keys(b)[j - |a|];
        assert ks[i] == Keys(a)[i];
      } else if j >= |a| {
        assert ks[i] == Keys(b)[i - |a|] && ks[j] == Keys(b)[j - |a|];
      } else {
        assert ks[i] == Keys(a)[i] && ks[j] == Keys(a)[j];
      }
    }
  }

  /** With distinct names, each entry is what a lookup of its name finds. */
  lemma LookupDistinct<V>(kvs: seq<(string, V)>, i: nat)
    requires i < |kvs|
    requires Distinct(Keys(kvs))
    ensures Lookup(kvs, kvs[i].0) == Some(kvs[i].1)
  {
    var j := KeyIndex(kvs, kvs[i].0).value;
    assert Keys(kvs)[j] == Keys(kvs)[i];
  }

  /**
   * With distinct names on both sides, the setattr loop keeps the old
   * names in place and appends the new ones in order.
   */
  lemma {:induction false} SetAttrsKeys<V>(attrs: seq<(string, V)>, kvs: seq<(string, V)>)
    requires Distinct(Keys(kvs))
    ensures Keys(SetAttrs(attrs, kvs)) == Keys(attrs) + Keys(Unbound(kvs, Keys(attrs)))
  {
    if kvs != [] {
      var n := |kvs| - 1;
      var init := kvs[..n];
      var x := kvs[n];
      assert kvs == init + [x];
      assert Keys(init) == Keys(kvs)[..n];
      SetAttrsKeys(attrs, init);
      if x.0 in Keys(attrs) {
        SetAttrsKeysOld(attrs, init, x);
      } else {
        assert !HasKey(init, x.0) by {
          forall i | 0 <= i < n ensures Keys(init)[i] != x.0 {
            assert Keys(kvs)[i] != Keys(kvs)[n];
          }
        }
        SetAttrsKeysNew(attrs, init, x);
      }
    }
  }

  lemma SetAttrsKeysOld<V>(attrs: seq<(string, V)>, init: seq<(string, V)>, x: (string, V))
    requires Keys(SetAttrs(attrs, init)) == Keys(attrs) + Keys(Unbound(init, Keys(attrs)))
    requires x.0 in Keys(attrs)
    ensures Keys(SetAttrs(attrs, init + [x])) == Keys(attrs) + Keys(Unbound(init + [x], Keys(attrs)))
  {
    var mid := SetAttrs(attrs, init);
    assert (init + [x])[..|init|] == init;
    assert HasKey(mid, x.0);
    assert SetAttrs(attrs, init + [x]) == SetAttr(mid, x.0, x.1);
  }

  lemma SetAttrsKeysNew<V>(attrs: seq<(string, V)>, init: seq<(string, V)>, x: (string, V))
    requires Keys(SetAttrs(attrs, init)) == Keys(attrs) + Keys(Unbound(init, Keys(attrs)))
    requires x.0 !in Keys(attrs) && !HasKey(init, x.0)
    ensures Keys(SetAttrs(attrs, init + [x])) == Keys(attrs) + Keys(Unbound(init + [x], Keys(attrs)))
  {
    var mid := SetAttrs(attrs, init);
    var before := Unbound(init, Keys(attrs));
    assert (init + [x])[..|init|] == init;
    assert SetAttrs(attrs, init + [x]) == mid + [x] by {
      UnboundLookup(init, Keys(attrs), x.0);
      assert !HasKey(before, x.0);
      assert x.0 !in Keys(attrs) + Keys(before);
    }
    assert Unbound(init + [x], Keys(attrs)) == before + [x];
    KeysSnoc(mid, x);
    KeysSnoc(before, x);
    SeqAssoc(Keys(attrs), Keys(before), [x.0]);
  }

  lemma KeysSnoc<V>(a: seq<(string, V)>, x: (string, V))
    ensures Keys(a + [x]) == Keys(a) + [x.0]
  {
  }

  lemma SeqAssoc(a: seq<string>, b: seq<string>, c: seq<string>)
    ensures (a + b) + c == a + (b + c)
  {
  }

  /**
   * Whether a call `f(**args)` can bind at all. A keyword named `self`
   * collides with the bound instance, and a keyword given twice collides
   * with itself: Python raises TypeError for either.
   */
  predicate Bindable<V>(args: seq<(string, V)>) {
    !HasKey(args, "self") && Distinct(Keys(args))
  }
}
