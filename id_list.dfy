/**
 * The checkbox handler shared by the map filter panel and the alert
 * subscription page: checking an id appends it to the selected list,
 * unchecking filters every occurrence of it out.
 */
module IdList {
  import opened Common

  /** The list with every occurrence of `id` filtered out, the rest in order. */
  function Without(s: seq<string>, id: string): (r: seq<string>)
    ensures id !in r
    ensures IsSubsequence(r, s)
    ensures forall x :: x != id ==> (x in r <==> x in s)
    ensures multiset(r) == multiset(s)[id := 0]
  {
    if s == [] then []
    else
      var front, last := s[..|s| - 1], s[|s| - 1];
      var init := Without(front, id);
      assert s == front + [last];
      WithoutLast(front, last, id, init);
      if last == id then init else init + [last]
  }

  /** One step of `Without`: filtering a list extended by one element. */
  lemma WithoutLast(front: seq<string>, last: string, id: string, init: seq<string>)
    requires IsSubsequence(init, front) && multiset(init) == multiset(front)[id := 0]
    ensures var r := if last == id then init else init + [last];
      IsSubsequence(r, front + [last]) && multiset(r) == multiset(front + [last])[id := 0]
  {
    var s := front + [last];
    assert s[..|s| - 1] == front && s[|s| - 1] == last;
    assert multiset(s) == multiset(front) + multiset{last};
    if last != id {
      var r := init + [last];
      assert r[..|r| - 1] == init && r[|r| - 1] == last;
    }
  }

  /** The checkbox handler: append on check, remove all occurrences on uncheck. */
  function Toggle(s: seq<string>, id: string, checked: bool): (r: seq<string>)
    ensures id in r <==> checked
    ensures forall x :: x != id ==> (x in r <==> x in s)
    ensures checked ==> |r| == |s| + 1 && r[..|s|] == s && r[|s|] == id
    ensures !checked ==> IsSubsequence(r, s) && multiset(r) == multiset(s)[id := 0]
  {
    if checked then s + [id] else Without(s, id)
  }

  /** Filtering out an id that is absent leaves the list as it was. */
  lemma {:induction false} WithoutAbsent(s: seq<string>, id: string)
    requires id !in s
    ensures Without(s, id) == s
  {
    if s != [] {
      WithoutAbsent(s[..|s| - 1], id);
      assert s == s[..|s| - 1] + [s[|s| - 1]];
    }
  }

  /** Checking then unchecking an id that was not selected restores the list. */
  lemma CheckThenUncheck(s: seq<string>, id: string)
    requires id !in s
    ensures Toggle(Toggle(s, id, true), id, false) == s
  {
    var t := s + [id];
    assert t[..|t| - 1] == s;
    WithoutAbsent(s, id);
  }

  /** Unchecking twice is the same as unchecking once. */
  lemma UncheckIdempotent(s: seq<string>, id: string)
    ensures Toggle(Toggle(s, id, false), id, false) == Toggle(s, id, false)
  {
    WithoutAbsent(Without(s, id), id);
  }
}
