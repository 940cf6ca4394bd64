/** Collecting the elements of a list under a string key, in order of first appearance. */
module Grouping {
  import opened Common
  import opened JsMap
  import opened Lists

  function OnKey<T>(s: seq<T>, key: T -> string, k: string): (r: seq<T>) {
    if s == [] then []
    else OnKey(s[..|s| - 1], key, k) + (if key(s[|s| - 1]) == k then [s[|s| - 1]] else [])
  }

  function KeysOf<T>(s: seq<T>, key: T -> string): (r: seq<string>) {
    if s == [] then []
    else
      var init, k := KeysOf(s[..|s| - 1], key), key(s[|s| - 1]);
      if k in init then init else init + [k]
  }

  lemma {:induction false} KeysAre<T>(s: seq<T>, key: T -> string)
    ensures Distinct(KeysOf(s, key))
    ensures forall k :: k in KeysOf(s, key) <==> OnKey(s, key, k) != []
  {
    if s != [] {
      KeysAre(s[..|s| - 1], key);
    }
  }

  lemma {:induction false} OnKeyCount<T>(s: seq<T>, key: T -> string, k: string, x: T)
    ensures multiset(OnKey(s, key, k))[x] == if key(x) == k then multiset(s)[x] else 0
  {
    if s != [] {
      OnKeyCount(s[..|s| - 1], key, k, x);
      assert s == s[..|s| - 1] + [s[|s| - 1]];
    }
  }

  lemma OnKeyMember<T>(s: seq<T>, key: T -> string, k: string, x: T)
    ensures x in OnKey(s, key, k) <==> x in s && key(x) == k
  {
    OnKeyCount(s, key, k, x);
    assert x in s <==> x in multiset(s);
    assert x in OnKey(s, key, k) <==> x in multiset(OnKey(s, key, k));
  }

  lemma {:induction false} OnKeyAppend<T>(a: seq<T>, b: seq<T>, key: T -> string, k: string)
    ensures OnKey(a + b, key, k) == OnKey(a, key, k) + OnKey(b, key, k)
  {
    if b == [] {
      assert a + b == a;
    } else {
      var init := b[..|b| - 1];
      assert (a + b)[..|a + b| - 1] == a + init;
      OnKeyAppend(a, init, key, k);
    }
  }

  /** Grouping sees the elements, not their order. */
  lemma {:induction false} OnKeyPerm<T>(a: seq<T>, b: seq<T>, key: T -> string, k: string)
    requires multiset(a) == multiset(b)
    ensures multiset(OnKey(a, key, k)) == multiset(OnKey(b, key, k))
  {
    if a == [] {
      assert |multiset(a)| == |a| && |multiset(b)| == |b|;
    } else {
      var init, x := a[..|a| - 1], a[|a| - 1];
      assert a == init + [x];
      assert x in multiset(b);
      var l, r := PickOut(b, x);
      assert multiset(init) == multiset(a) - multiset{x};
      OnKeyPerm(init, l + r, key, k);
      OnKeyAppend(l, r, key, k);
      OnKeyAppend(l + [x], r, key, k);
      OnKeyPush(l, x, key, k);
    }
  }

  lemma KeysPerm<T>(a: seq<T>, b: seq<T>, key: T -> string)
    requires multiset(a) == multiset(b)
    ensures multiset(KeysOf(a, key)) == multiset(KeysOf(b, key))
  {
    hide KeysOf, OnKey;
    KeysAre(a, key);
    KeysAre(b, key);
    forall k ensures k in KeysOf(a, key) <==> k in KeysOf(b, key) {
      OnKeyPerm(a, b, key, k);
      assert |multiset(OnKey(a, key, k))| == |OnKey(a, key, k)|;
      assert |multiset(OnKey(b, key, k))| == |OnKey(b, key, k)|;
    }
    DistinctSame(KeysOf(a, key), KeysOf(b, key));
  }

  lemma OnKeyPush<T>(s: seq<T>, x: T, key: T -> string, k: string)
    ensures OnKey(s + [x], key, k) == OnKey(s, key, k) + (if key(x) == k then [x] else [])
    ensures KeysOf(s + [x], key) == KeysOf(s, key) + (if key(x) in KeysOf(s, key) then [] else [key(x)])
  {
    assert (s + [x])[..|s|] == s;
  }

  lemma NothingGrouped<T>(key: T -> string, k: string)
    ensures OnKey([], key, k) == [] && KeysOf([], key) == []
  {
  }

  lemma {:induction false} OnKeyMapped<T, U>(s: seq<T>, f: T -> U, keyT: T -> string, keyU: U -> string, k: string)
    requires forall x | x in s :: keyU(f(x)) == keyT(x)
    ensures OnKey(Mapped(s, f), keyU, k) == Mapped(OnKey(s, keyT, k), f)
    ensures KeysOf(Mapped(s, f), keyU) == KeysOf(s, keyT)
  {
    hide OnKey, KeysOf;
    if s == [] {
      NothingGrouped(keyT, k);
      NothingGrouped(keyU, k);
    } else {
      var init, x := s[..|s| - 1], s[|s| - 1];
      assert x in s && s == init + [x];
      assert Mapped(s, f) == Mapped(init, f) + [f(x)];
      OnKeyPush(init, x, keyT, k);
      OnKeyPush(Mapped(init, f), f(x), keyU, k);
      OnKeyMapped(init, f, keyT, keyU, k);
    }
  }

  /** The grouping of a list: one entry a key. */
  ghost predicate Grouped<T>(m: JsMap<string, seq<T>>, s: seq<T>, key: T -> string) {
    && m.keys == KeysOf(s, key)
    && (forall k :: k in m.at <==> k in m.keys)
    && (forall k | k in m.at :: m.at[k] == OnKey(s, key, k))
  }

  lemma GroupStep<T>(m: JsMap<string, seq<T>>, s: seq<T>, x: T, key: T -> string)
    requires Grouped(m, s, key)
    ensures var list := if m.Has(key(x)) then m.at[key(x)] else [];
      Grouped(m.Put(key(x), list + [x]), s + [x], key)
  {
    hide OnKey, KeysOf;
    KeysAre(s, key);
    OnKeyPush(s, x, key, key(x));
    var n := m.Put(key(x), (if m.Has(key(x)) then m.at[key(x)] else []) + [x]);
    forall k | k in n.at ensures n.at[k] == OnKey(s + [x], key, k) {
      OnKeyPush(s, x, key, k);
      assert OnKey(s, key, k) + [] == OnKey(s, key, k);
    }
  }

  lemma EmptyGrouped<T>(key: T -> string)
    ensures Grouped(Empty(), [], key)
  {
  }

  /** The loop that pushes each element on the list of its key. */
  method GroupBy<T>(s: seq<T>, key: T -> string) returns (m: JsMap<string, seq<T>>)
    ensures Grouped(m, s, key)
  {
    hide Grouped;
    m := Empty();
    EmptyGrouped(key);
    for i := 0 to |s|
      invariant Grouped(m, s[..i], key)
    {
      var list := if m.Has(key(s[i])) then m.at[key(s[i])] else [];
      GroupStep(m, s[..i], s[i], key);
      assert s[..i + 1] == s[..i] + [s[i]];
      m := m.Put(key(s[i]), list + [s[i]]);
    }
    assert s[..|s|] == s;
  }

  /** The total of each key's elements. */
  function KeyTotal<T>(s: seq<T>, key: T -> string, f: T -> int): string -> int {
    (k: string) => Total(OnKey(s, key, k), f)
  }

  lemma {:induction false} TotalBump(keys: seq<string>, g: string -> int, h: string -> int, k0: string, d: int)
    requires Distinct(keys)
    requires forall k | k in keys :: h(k) == g(k) + if k == k0 then d else 0
    ensures Total(keys, h) == Total(keys, g) + if k0 in keys then d else 0
  {
    if keys != [] {
      var init, k := keys[..|keys| - 1], keys[|keys| - 1];
      assert keys == init + [k] && k in keys;
      TotalBump(init, g, h, k0, d);
    }
  }

  /** Summing key by key is summing all. */
  lemma {:induction false} TotalByKeys<T>(s: seq<T>, key: T -> string, f: T -> int)
    ensures Total(KeysOf(s, key), KeyTotal(s, key, f)) == Total(s, f)
  {
    hide OnKey, KeysOf;
    if s == [] {
      NothingGrouped(key, "");
    } else {
      var init, x := s[..|s| - 1], s[|s| - 1];
      assert s == init + [x];
      var g, h, keys := KeyTotal(init, key, f), KeyTotal(s, key, f), KeysOf(init, key);
      TotalByKeys(init, key, f);
      forall k ensures h(k) == g(k) + if k == key(x) then f(x) else 0 {
        OnKeyPush(init, x, key, k);
        TotalPush(OnKey(init, key, k), x, f);
        assert OnKey(init, key, k) + [] == OnKey(init, key, k);
      }
      KeysAre(init, key);
      TotalBump(keys, g, h, key(x), f(x));
      OnKeyPush(init, x, key, key(x));
      if key(x) !in keys {
        TotalPush(keys, key(x), h);
      } else {
        assert keys + [] == keys;
      }
    }
  }

  /** Nothing is missed if the keys listed include all there are. */
  lemma {:induction false} TotalOverKeys<T>(s: seq<T>, keys: seq<string>, key: T -> string, f: T -> int)
    requires Distinct(keys) && forall x | x in s :: key(x) in keys
    ensures Total(keys, KeyTotal(s, key, f)) == Total(s, f)
  {
    hide OnKey;
    if s == [] {
      NothingTotalled(keys, key, f);
    } else {
      var init, x := s[..|s| - 1], s[|s| - 1];
      assert s == init + [x] && x in s;
      TotalOverKeys(init, keys, key, f);
      var g, h := KeyTotal(init, key, f), KeyTotal(s, key, f);
      forall k ensures h(k) == g(k) + if k == key(x) then f(x) else 0 {
        OnKeyPush(init, x, key, k);
        TotalPush(OnKey(init, key, k), x, f);
        assert OnKey(init, key, k) + [] == OnKey(init, key, k);
      }
      TotalBump(keys, g, h, key(x), f(x));
    }
  }

  lemma {:induction false} NothingTotalled<T>(keys: seq<string>, key: T -> string, f: T -> int)
    ensures Total(keys, KeyTotal([], key, f)) == 0 && Total<T>([], f) == 0
  {
    if keys != [] {
      NothingTotalled(keys[..|keys| - 1], key, f);
      NothingGrouped(key, keys[|keys| - 1]);
    }
  }
}
