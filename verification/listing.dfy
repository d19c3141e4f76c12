/** The ordered listing of the projects table. */
module Listing {

  /** The order of ORDER BY name. */
  predicate NameLe(a: string, b: string) {
    a == "" || (b != "" && (a[0] < b[0] || (a[0] == b[0] && NameLe(a[1..], b[1..]))))
  }

  /** `names` is the table in order, each name once. */
  ghost predicate Lists(names: seq<string>, table: set<string>) {
    && (forall n :: n in names <==> n in table)
    && (forall i, j | 0 <= i < j < |names| :: names[i] != names[j] && NameLe(names[i], names[j]))
  }

  /** Ascending by code point: a name comes before another if it is a prefix of it, or has the smaller
      character where they first differ. */
  lemma {:induction false} NameLeMeans(a: string, b: string)
    ensures NameLe(a, b) <==> a <= b || FirstDiffersBelow(a, b)
    decreases |a|
  {
    if a != "" && b != "" && a[0] == b[0] {
      NameLeMeans(a[1..], b[1..]);
      if FirstDiffersBelow(a[1..], b[1..]) {
        var k: nat :| k < |a[1..]| && k < |b[1..]| && a[1..][..k] == b[1..][..k] && a[1..][k] < b[1..][k];
        assert a[..k + 1] == [a[0]] + a[1..][..k] && b[..k + 1] == [b[0]] + b[1..][..k];
        assert a[k + 1] < b[k + 1];
      }
      if FirstDiffersBelow(a, b) {
        var k: nat :| k < |a| && k < |b| && a[..k] == b[..k] && a[k] < b[k];
        assert a[1..][..k - 1] == a[..k][1..] && b[1..][..k - 1] == b[..k][1..];
        assert a[1..][k - 1] < b[1..][k - 1];
      }
      assert a <= b <==> a[1..] <= b[1..] by {
        assert a == [a[0]] + a[1..] && b == [b[0]] + b[1..];
      }
    }
  }

  ghost predicate FirstDiffersBelow(a: string, b: string) {
    exists k: nat :: k < |a| && k < |b| && a[..k] == b[..k] && a[k] < b[k]
  }

  // ---- A total order ----

  lemma {:induction false} NameLeAntisymmetric(a: string, b: string)
    requires NameLe(a, b) && NameLe(b, a)
    ensures a == b
    decreases |a|
  {
    if a != "" {
      NameLeAntisymmetric(a[1..], b[1..]);
      assert a == [a[0]] + a[1..] && b == [b[0]] + b[1..];
    }
  }

  lemma {:induction false} NameLeTotal(a: string, b: string)
    ensures NameLe(a, b) || NameLe(b, a)
    decreases |a|
  {
    if a != "" && b != "" && a[0] == b[0] {
      NameLeTotal(a[1..], b[1..]);
    }
  }

  lemma {:induction false} NameLeTransitive(a: string, b: string, c: string)
    requires NameLe(a, b) && NameLe(b, c)
    ensures NameLe(a, c)
    decreases |a|
  {
    if a != "" && a[0] == b[0] && b[0] == c[0] {
      NameLeTransitive(a[1..], b[1..], c[1..]);
    }
  }

  // ---- The listing exists ----

  predicate IsFirst(table: set<string>, name: string) {
    name in table && forall n | n in table :: NameLe(name, n)
  }

  lemma {:induction false} FirstExists(table: set<string>) returns (first: string)
    requires table != {}
    ensures IsFirst(table, first)
    decreases |table|
  {
    var some :| some in table;
    NameLeTotal(some, some);
    first := some;
    var rest := table - {some};
    if rest != {} {
      var second := FirstExists(rest);
      NameLeTotal(some, second);
      if NameLe(some, second) {
        forall n | n in rest ensures NameLe(some, n) {
          NameLeTransitive(some, second, n);
        }
      } else {
        first := second;
      }
    }
    assert forall n | n in table :: n == some || n in rest;
  }

  lemma FirstIsUnique(table: set<string>)
    requires table != {}
    ensures exists n :: IsFirst(table, n)
    ensures forall m, n | IsFirst(table, m) && IsFirst(table, n) :: m == n
  {
    var first := FirstExists(table);
    forall m, n | IsFirst(table, m) && IsFirst(table, n) ensures m == n {
      NameLeAntisymmetric(m, n);
    }
  }

  /** What the ordered query returns for a table. */
  function Listed(table: set<string>): (names: seq<string>)
    ensures Lists(names, table)
    decreases |table|
  {
    if table == {} then []
    else
      FirstIsUnique(table);
      var first :| first in table && IsFirst(table, first);
      ListsCons(table, first, Listed(table - {first}));
      [first] + Listed(table - {first})
  }

  lemma ListsCons(table: set<string>, first: string, rest: seq<string>)
    requires IsFirst(table, first) && Lists(rest, table - {first})
    ensures Lists([first] + rest, table)
  {
    var names := [first] + rest;
    forall i, j | 0 <= i < j < |names| ensures names[i] != names[j] && NameLe(names[i], names[j]) {
      assert names[j] == rest[j - 1] && rest[j - 1] in rest;
      if i > 0 {
        assert names[i] == rest[i - 1];
      }
    }
  }

  // ---- The listing is unique ----

  /** A table has only one listing, so a refreshed cache is determined by the snapshot it shows. */
  lemma {:induction false} ListingIsUnique(names: seq<string>, names': seq<string>, table: set<string>)
    requires Lists(names, table) && Lists(names', table)
    ensures names == names'
    decreases |names|
  {
    EmptyListing(names, table);
    EmptyListing(names', table);
    if names != [] {
      assert names[0] in names && names[0] in names';
      var i :| 0 <= i < |names'| && names'[i] == names[0];
      assert names'[0] in names' && names'[0] in names;
      var j :| 0 <= j < |names| && names[j] == names'[0];
      if i > 0 && j > 0 {
        NameLeAntisymmetric(names[0], names'[0]);
      }
      assert names[0] == names'[0];
      TailLists(names, table);
      TailLists(names', table);
      ListingIsUnique(names[1..], names'[1..], table - {names[0]});
      assert names == [names[0]] + names[1..] && names' == [names'[0]] + names'[1..];
    }
  }

  lemma EmptyListing(names: seq<string>, table: set<string>)
    requires Lists(names, table)
    ensures names == [] <==> table == {}
  {
    if names != [] {
      assert names[0] in names;
    }
    if n :| n in table {
      assert n in names;
    }
  }

  lemma TailLists(names: seq<string>, table: set<string>)
    requires Lists(names, table) && names != []
    ensures Lists(names[1..], table - {names[0]})
  {
    var tail := names[1..];
    forall n ensures n in tail <==> n in table - {names[0]} {
      if n in tail {
        var i :| 0 <= i < |tail| && tail[i] == n;
        assert names[i + 1] == n && n in names;
      }
      if n in table && n != names[0] {
        var i :| 0 <= i < |names| && names[i] == n;
        assert tail[i - 1] == n;
      }
    }
  }
}
