/** Grouping a list into a dictionary of lists, the `reduce` that both `groupMediaByField`
    (src/lib/storage.ts) and `groupConvertedMedia` (src/lib/utils.ts) perform: each item is
    pushed onto the list under its key, and a key's list is created when its first item
    arrives. */
module Grouping {
  import opened Wrappers

  /** The items of `s` whose key is `k`, in the order of `s`. */
  function Select<T>(s: seq<T>, key: T -> string, k: string): seq<T>
  {
    if s == [] then []
    else Select(s[..|s| - 1], key, k) + (if key(s[|s| - 1]) == k then [s[|s| - 1]] else [])
  }

  /** `sub` is `s` with some elements left out, the others kept in order. */
  predicate IsSubsequence<T(==)>(sub: seq<T>, s: seq<T>)
  {
    if sub == [] then true
    else if s == [] then false
    else if sub[|sub| - 1] == s[|s| - 1] then IsSubsequence(sub[..|sub| - 1], s[..|s| - 1])
    else IsSubsequence(sub, s[..|s| - 1])
  }

  /** A group holds only items of `s` with its key. */
  lemma {:induction false} SelectMembers<T>(s: seq<T>, key: T -> string, k: string)
    ensures forall x :: x in Select(s, key, k) ==> x in s && key(x) == k
  {
    if s != [] {
      SelectMembers(s[..|s| - 1], key, k);
      assert s == s[..|s| - 1] + [s[|s| - 1]];
    }
  }

  /** A group holds every item of `s` with its key, as often as `s` does. */
  lemma {:induction false} SelectCounts<T>(s: seq<T>, key: T -> string, k: string)
    ensures forall x :: key(x) == k ==> multiset(Select(s, key, k))[x] == multiset(s)[x]
  {
    if s != [] {
      SelectCounts(s[..|s| - 1], key, k);
      assert s == s[..|s| - 1] + [s[|s| - 1]];
    }
  }

  /** A group keeps the order of `s`. */
  lemma {:induction false} SelectIsSubsequence<T>(s: seq<T>, key: T -> string, k: string)
    ensures IsSubsequence(Select(s, key, k), s)
  {
    if s != [] {
      var init, last := s[..|s| - 1], s[|s| - 1];
      SelectIsSubsequence(init, key, k);
      var sel := Select(init, key, k);
      if key(last) == k {
        assert Select(s, key, k) == sel + [last];
        assert (sel + [last])[..|sel|] == sel;
      } else {
        assert Select(s, key, k) == sel;
        SubsequenceDropLast(sel, s);
      }
    }
  }

  /** A group is empty exactly when no item of `s` has its key. */
  lemma SelectEmpty<T>(s: seq<T>, key: T -> string, k: string)
    ensures (exists i :: 0 <= i < |s| && key(s[i]) == k) <==> Select(s, key, k) != []
  {
    SelectMembers(s, key, k);
    SelectCounts(s, key, k);
    if i :| 0 <= i < |s| && key(s[i]) == k {
      assert multiset(s)[s[i]] > 0;
    }
  }

  lemma {:induction false} SubsequenceDropLast<T>(sub: seq<T>, s: seq<T>)
    requires s != [] && IsSubsequence(sub, s[..|s| - 1])
    ensures IsSubsequence(sub, s)
  {
    if sub != [] && sub[|sub| - 1] == s[|s| - 1] {
      SubsequenceWeaken(sub, s[..|s| - 1]);
    }
  }

  /** Dropping the last element of a subsequence leaves a subsequence. */
  lemma {:induction false} SubsequenceWeaken<T>(sub: seq<T>, s: seq<T>)
    requires sub != [] && IsSubsequence(sub, s)
    ensures IsSubsequence(sub[..|sub| - 1], s)
  {
    if s != [] {
      if sub[|sub| - 1] == s[|s| - 1] {
        SubsequenceDropLast(sub[..|sub| - 1], s);
      } else {
        SubsequenceWeaken(sub, s[..|s| - 1]);
        SubsequenceDropLast(sub[..|sub| - 1], s);
      }
    }
  }

  /** Putting the same element in front of both sides keeps a subsequence. */
  lemma {:induction false} SubsequenceConsBoth<T>(x: T, sub: seq<T>, s: seq<T>)
    requires IsSubsequence(sub, s)
    decreases |sub| + |s|
    ensures IsSubsequence([x] + sub, [x] + s)
  {
    if sub == [] {
      assert [x] + sub == [x];
      SingletonSubsequence(x, s);
    } else if sub[|sub| - 1] == s[|s| - 1] {
      SubsequenceConsBoth(x, sub[..|sub| - 1], s[..|s| - 1]);
      assert ([x] + sub)[..|sub|] == [x] + sub[..|sub| - 1];
      assert ([x] + s)[..|s|] == [x] + s[..|s| - 1];
    } else {
      SubsequenceConsBoth(x, sub, s[..|s| - 1]);
      assert ([x] + s)[..|s|] == [x] + s[..|s| - 1];
    }
  }

  /** `[x]` is a subsequence of anything that starts with `x`. */
  lemma {:induction false} SingletonSubsequence<T>(x: T, s: seq<T>)
    ensures IsSubsequence([x], [x] + s)
  {
    if s != [] && s[|s| - 1] != x {
      SingletonSubsequence(x, s[..|s| - 1]);
      assert ([x] + s)[..|s|] == [x] + s[..|s| - 1];
    } else if s != [] {
      assert ([x] + s)[|s|] == x;
    }
  }

  /** Putting an element in front of the larger side keeps a subsequence. */
  lemma {:induction false} SubsequenceConsRight<T>(x: T, sub: seq<T>, s: seq<T>)
    requires IsSubsequence(sub, s)
    decreases |sub| + |s|
    ensures IsSubsequence(sub, [x] + s)
  {
    if sub != [] {
      assert ([x] + s)[..|s|] == [x] + s[..|s| - 1];
      if sub[|sub| - 1] == s[|s| - 1] {
        SubsequenceConsRight(x, sub[..|sub| - 1], s[..|s| - 1]);
      } else {
        SubsequenceConsRight(x, sub, s[..|s| - 1]);
      }
    }
  }

  /** One more item extends exactly the group under its key. */
  lemma SelectSnoc<T>(s: seq<T>, key: T -> string, i: nat)
    requires i < |s|
    ensures forall k ::
      Select(s[..i + 1], key, k) == Select(s[..i], key, k) + (if key(s[i]) == k then [s[i]] else [])
  {
    assert s[..i + 1][..i] == s[..i];
  }

  /** The property names a plain object `{}` inherits from `Object.prototype`. Reading one of
      them from the accumulator gives a truthy function (or, for `__proto__`, the prototype
      itself), so the group is never created and the `push` that follows throws a
      `TypeError`. */
  const InheritedKeys: set<string> := {
    "constructor", "__proto__", "__defineGetter__", "__defineSetter__", "__lookupGetter__",
    "__lookupSetter__", "hasOwnProperty", "isPrototypeOf", "propertyIsEnumerable",
    "toLocaleString", "toString", "valueOf"}

  /** Groups `s` by `key` into a plain object. The `reduce` throws, and `None` is returned,
      exactly when some item's key is an inherited property name. Otherwise a group exists
      exactly for the keys that occur, and holds the items with that key in the order of `s`. */
  method GroupBy<T>(s: seq<T>, key: T -> string) returns (r: Option<map<string, seq<T>>>)
    ensures r.None? <==> exists i :: 0 <= i < |s| && key(s[i]) in InheritedKeys
    ensures r.Some? ==> forall k :: k in r.value <==> exists i :: 0 <= i < |s| && key(s[i]) == k
    ensures r.Some? ==> forall k :: k in r.value ==> r.value[k] == Select(s, key, k)
    ensures r.Some? ==> forall k :: k in r.value ==> r.value[k] != []
  {
    var groups := map[];
    var i := 0;
    while i < |s|
      invariant 0 <= i <= |s|
      invariant forall j :: 0 <= j < i ==> key(s[j]) !in InheritedKeys
      invariant forall k :: k in groups <==> exists j :: 0 <= j < i && key(s[j]) == k
      invariant forall k :: k in groups ==> groups[k] == Select(s[..i], key, k)
    {
      var item := s[i];
      var k := key(item);
      if k in InheritedKeys {
        return None;
      }
      if k !in groups {
        SelectEmpty(s[..i], key, k);
        assert forall j :: 0 <= j < i ==> s[..i][j] == s[j];
        groups := groups[k := []];
      }
      groups := groups[k := groups[k] + [item]];
      SelectSnoc(s, key, i);
      i := i + 1;
    }
    assert s[..i] == s;
    forall k | k in groups ensures groups[k] != [] {
      SelectEmpty(s, key, k);
    }
    r := Some(groups);
  }

  /** Every item lands in exactly one group, the one under its own key. */
  lemma ItemInExactlyOneGroup<T>(s: seq<T>, key: T -> string, groups: map<string, seq<T>>, i: nat)
    requires forall k :: k in groups <==> exists j :: 0 <= j < |s| && key(s[j]) == k
    requires forall k :: k in groups ==> groups[k] == Select(s, key, k)
    requires i < |s|
    ensures key(s[i]) in groups && s[i] in groups[key(s[i])]
    ensures forall k :: k in groups && s[i] in groups[k] ==> k == key(s[i])
  {
    var k := key(s[i]);
    SelectCounts(s, key, k);
    assert multiset(s)[s[i]] > 0;
    forall k' | k' in groups && s[i] in groups[k'] ensures k' == k {
      SelectMembers(s, key, k');
    }
  }
}
