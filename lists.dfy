/** The list operations the editor handlers are built from: append, replace at
    an index, and remove by index with `filter((_, i) => i !== index)`. */
module Lists {

  /** `s.filter((_, j) => j !== i)`: the element at position `i` is dropped and
      the rest keep their order; an index outside the list drops nothing. */
  function RemoveAt<T>(s: seq<T>, i: int): (r: seq<T>)
    ensures 0 <= i < |s| ==> r == s[..i] + s[i + 1..]
    ensures !(0 <= i < |s|) ==> r == s
    decreases |s|
  {
    if s == [] then []
    else (if i == 0 then [] else [s[0]]) + RemoveAt(s[1..], i - 1)
  }

  /** Removing keeps exactly the other elements: one fewer, and the removed
      element is the only one that goes (order: see the ensures of RemoveAt). */
  lemma RemoveAtContents<T>(s: seq<T>, i: int)
    requires 0 <= i < |s|
    ensures |RemoveAt(s, i)| == |s| - 1
    ensures multiset(RemoveAt(s, i)) + multiset{s[i]} == multiset(s)
  {
    SplitMultiset(s[..i], s[i], s[i + 1..]);
    assert s == s[..i] + [s[i]] + s[i + 1..];
  }

  lemma SplitMultiset<T>(a: seq<T>, x: T, b: seq<T>)
    ensures multiset(a + b) + multiset{x} == multiset(a + [x] + b)
  {
    assert multiset(a + [x] + b) == multiset(a + [x]) + multiset(b);
    assert multiset(a + [x]) == multiset(a) + multiset([x]);
    assert multiset(a + b) == multiset(a) + multiset(b);
  }

  /** Adding an item and removing it again before saving leaves the list as it
      was: add and remove are a local no-op pair. */
  lemma AppendThenRemove<T>(s: seq<T>, x: T)
    ensures RemoveAt(s + [x], |s|) == s
  {
    assert (s + [x])[..|s|] == s;
  }
}

/** The save-time role filter shared by both hero editors. */
module RoleFilter {
  import opened Js

  /** `roles.filter(role => role.trim() !== '')`. */
  function KeepFilled(roles: seq<string>): (r: seq<string>)
    ensures |r| <= |roles|
    ensures forall x :: x in r <==> x in roles && Trim(x) != ""
  {
    if roles == [] then []
    else (if Trim(roles[0]) != "" then [roles[0]] else []) + KeepFilled(roles[1..])
  }

  /** A role is dropped exactly when it is white space only. */
  lemma KeptMeansNotBlank(roles: seq<string>, x: string)
    ensures x in KeepFilled(roles) <==> x in roles && !IsBlank(x)
  {
    TrimEmptyIffBlank(x);
  }

  /** The filter keeps the order: filtering a concatenation is concatenating
      the filtered parts. */
  lemma {:induction false} KeepFilledConcat(a: seq<string>, b: seq<string>)
    ensures KeepFilled(a + b) == KeepFilled(a) + KeepFilled(b)
  {
    if a != [] {
      assert (a + b)[1..] == a[1..] + b;
      KeepFilledConcat(a[1..], b);
    } else {
      assert a + b == b;
    }
  }

  /** A list with no blank role passes unchanged. */
  lemma {:induction false} KeepFilledOfFilled(roles: seq<string>)
    requires forall i :: 0 <= i < |roles| ==> Trim(roles[i]) != ""
    ensures KeepFilled(roles) == roles
  {
    if roles != [] {
      KeepFilledOfFilled(roles[1..]);
    }
  }

  /** Saving twice filters nothing more. */
  lemma KeepFilledIdempotent(roles: seq<string>)
    ensures KeepFilled(KeepFilled(roles)) == KeepFilled(roles)
  {
    var r := KeepFilled(roles);
    forall i | 0 <= i < |r| ensures Trim(r[i]) != "" {
      assert r[i] in r;
    }
    KeepFilledOfFilled(r);
  }
}
