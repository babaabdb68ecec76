/** Sorted listings of a room's keys (roomstate/roomstate.go:46-54). */
module Listings {

  /** Byte-wise string order. */
  predicate Less(a: string, b: string) {
    b != "" && (a == "" || a[0] < b[0] || (a[0] == b[0] && Less(a[1..], b[1..])))
  }

  lemma {:induction false} LessTotal(a: string, b: string)
    ensures a == b || Less(a, b) || Less(b, a)
    ensures !(Less(a, b) && Less(b, a)) && !Less(a, a)
  {
    if a != "" && b != "" {
      LessTotal(a[1..], b[1..]);
      LessTotal(a[1..], a[1..]);
      assert a == [a[0]] + a[1..] && b == [b[0]] + b[1..];
    } else if a != "" {
      LessTotal(a[1..], a[1..]);
    }
  }

  /** Alike up to some place, where a ends or has the smaller byte. */
  ghost predicate SmallerAt(a: string, b: string, i: nat) {
    && i <= |a| && i < |b| && a[..i] == b[..i]
    && (i == |a| || a[i] < b[i])
  }

  lemma {:induction false} LessIsLexicographic(a: string, b: string)
    ensures Less(a, b) <==> exists i: nat :: SmallerAt(a, b, i)
  {
    if b != "" && a != "" && a[0] == b[0] {
      LessIsLexicographic(a[1..], b[1..]);
      if i: nat :| SmallerAt(a[1..], b[1..], i) {
        assert a[..i+1] == [a[0]] + a[1..][..i] && b[..i+1] == [b[0]] + b[1..][..i];
        assert SmallerAt(a, b, i + 1);
      }
      if i: nat :| SmallerAt(a, b, i) {
        assert i > 0;
        assert a[1..][..i-1] == a[..i][1..] && b[1..][..i-1] == b[..i][1..];
        assert SmallerAt(a[1..], b[1..], i - 1);
      }
    } else if Less(a, b) {
      assert SmallerAt(a, b, 0);
    }
  }

  lemma {:induction false} LessTransitive(a: string, b: string, c: string)
    requires Less(a, b) && Less(b, c)
    ensures Less(a, c)
  {
    if a != "" && a[0] == b[0] == c[0] {
      LessTransitive(a[1..], b[1..], c[1..]);
    }
  }

  ghost predicate Ascending(l: seq<string>) {
    forall i, j :: 0 <= i < j < |l| ==> Less(l[i], l[j])
  }

  /** l is the strictly ascending list of exactly these keys. */
  ghost predicate IsListing(l: seq<string>, keys: set<string>) {
    Ascending(l) && forall k :: k in l <==> k in keys
  }

  /** Keys have only one listing, so the order in which a map is visited does not show. */
  lemma {:induction false} ListingUnique(l: seq<string>, m: seq<string>, keys: set<string>)
    requires IsListing(l, keys) && IsListing(m, keys)
    ensures l == m
    decreases |l|
  {
    assert m != [] ==> m[0] in keys;
    assert l != [] ==> l[0] in keys;
    if l != [] {
      var i :| 0 <= i < |m| && m[i] == l[0];
      var j :| 0 <= j < |l| && l[j] == m[0];
      LessTotal(l[0], m[0]);
      assert l[0] == m[0];
      TailLists(l, keys);
      TailLists(m, keys);
      ListingUnique(l[1..], m[1..], keys - {l[0]});
    }
  }

  lemma TailLists(l: seq<string>, keys: set<string>)
    requires IsListing(l, keys) && l != []
    ensures IsListing(l[1..], keys - {l[0]})
  {
    forall k ensures k in l[1..] <==> k in keys - {l[0]} {
      LessTotal(k, l[0]);
      assert k in l <==> k == l[0] || k in l[1..];
    }
  }

  /** Puts x at its place. */
  method InsertSorted(l: seq<string>, x: string) returns (r: seq<string>)
    requires Ascending(l) && x !in l
    ensures Ascending(r) && forall k :: k in r <==> k == x || k in l
  {
    var i := 0;
    while i < |l| && Less(l[i], x)
      invariant i <= |l|
      invariant forall j :: 0 <= j < i ==> Less(l[j], x)
    {
      i := i + 1;
    }
    forall j | i <= j < |l| ensures Less(x, l[j]) {
      LessTotal(x, l[i]);
      if j > i {
        LessTransitive(x, l[i], l[j]);
      }
    }
    r := l[..i] + [x] + l[i..];
    assert l == l[..i] + l[i..];
  }

  /** The keys in some order, each once. */
  ghost predicate IsOnce(l: seq<string>, keys: set<string>) {
    (forall k :: k in l <==> k in keys) && forall i, j :: 0 <= i < j < |l| ==> l[i] != l[j]
  }

  lemma OneMoreKey(l: seq<string>, keys: set<string>, k: string)
    requires IsOnce(l, keys) && k !in keys
    ensures IsOnce(l + [k], keys + {k})
  {
    assert k !in l;
  }

  /** Collects the keys as they come and sorts them. */
  method AsList(keys: set<string>) returns (l: seq<string>)
    ensures IsListing(l, keys)
  {
    var todo := keys;
    var found: seq<string> := [];
    while todo != {}
      invariant todo <= keys
      invariant IsOnce(found, keys - todo)
      decreases |todo|
    {
      var k :| k in todo;
      OneMoreKey(found, keys - todo, k);
      todo, found := todo - {k}, found + [k];
      assert keys - todo == (keys - todo - {k}) + {k};
    }
    l := Sort(found);
  }

  /** sort.Strings, for strings that are all different. */
  method Sort(s: seq<string>) returns (l: seq<string>)
    requires forall i, j :: 0 <= i < j < |s| ==> s[i] != s[j]
    ensures Ascending(l) && forall k :: k in l <==> k in s
  {
    l := [];
    for i := 0 to |s|
      invariant Ascending(l) && forall k :: k in l <==> k in s[..i]
    {
      assert s[..i+1] == s[..i] + [s[i]];
      l := InsertSorted(l, s[i]);
    }
    assert s[..|s|] == s;
  }
}
