/** The lists of recent and favourite script files. */
module FileLists {
  import opened Sequences

  // ----- lists of names -----

  function RemoveFirst(s: seq<string>, f: string): seq<string> {
    if s == [] then [] else if s[0] == f then s[1..] else [s[0]] + RemoveFirst(s[1..], f)
  }

  function Take(s: seq<string>, n: nat): seq<string> {
    if |s| <= n then s else s[..n]
  }

  lemma {:induction false} RemoveFirstElements(s: seq<string>, f: string)
    requires Distinct(s)
    ensures Distinct(RemoveFirst(s, f)) && f !in RemoveFirst(s, f)
    ensures forall g :: g in RemoveFirst(s, f) <==> g in s && g != f
    ensures |RemoveFirst(s, f)| == if f in s then |s| - 1 else |s|
  {
    if s != [] {
      var tail := s[1..];
      RemoveFirstElements(tail, f);
      assert s == [s[0]] + tail;
      assert forall g :: g in s <==> g == s[0] || g in tail;
      var r := RemoveFirst(tail, f);
      if s[0] != f {
        assert RemoveFirst(s, f) == [s[0]] + r;
        forall k | 0 <= k < |r| ensures r[k] != s[0] {
          assert r[k] in r;
          var j :| 0 <= j < |tail| && tail[j] == r[k];
        }
      } else {
        assert f !in tail;
      }
    }
  }

  lemma TakeCons(x: string, rest: seq<string>, n: nat)
    requires n > 0
    ensures Take([x] + rest, n) == [x] + Take(rest, n - 1)
  {
  }

  /** Taking out f and then the first n, when more than the first n are known or not. */
  lemma {:induction false} TakeRemove(s: seq<string>, f: string, n: nat)
    ensures Take(RemoveFirst(Take(s, n + 1), f), n) == Take(RemoveFirst(s, f), n)
  {
    if |s| > n + 1 {
      if s[0] == f {
        assert Take(s, n + 1)[1..] == s[..n + 1][1..] == s[1..n + 1] == s[1..][..n] == Take(s[1..], n);
        assert Take(Take(s[1..], n), n) == Take(s[1..], n);
      } else if n > 0 {
        TakeRemove(s[1..], f, n - 1);
        assert Take(s, n + 1)[1..] == Take(s[1..], n);
        TakeCons(s[0], RemoveFirst(s[1..], f), n);
        TakeCons(s[0], RemoveFirst(Take(s[1..], n), f), n);
      }
    }
  }

  // ----- recent files -----

  /** updateRecentFiles. */
  function Updated(recents: seq<string>, favourites: seq<string>, f: string): seq<string> {
    if f in favourites then recents else Take([f] + RemoveFirst(recents, f), 10)
  }

  /** The list after a history of accesses, the oldest first. */
  function Recents(history: seq<string>, favourites: seq<string>): seq<string> {
    if history == [] then []
    else Updated(Recents(history[..|history| - 1], favourites), favourites, history[|history| - 1])
  }

  /** The same without a limit. */
  function Unlimited(history: seq<string>, favourites: seq<string>): seq<string> {
    if history == [] then []
    else
      var before, f := Unlimited(history[..|history| - 1], favourites), history[|history| - 1];
      if f in favourites then before else [f] + RemoveFirst(before, f)
  }

  /** The list is the first ten of the unlimited one. */
  lemma {:induction false} RecentsAreFirstTen(history: seq<string>, favourites: seq<string>)
    ensures Recents(history, favourites) == Take(Unlimited(history, favourites), 10)
  {
    if history != [] {
      var before, f := history[..|history| - 1], history[|history| - 1];
      RecentsAreFirstTen(before, favourites);
      if f !in favourites {
        var u := Unlimited(before, favourites);
        TakeRemove(u, f, 9);
        TakeCons(f, RemoveFirst(u, f), 10);
        TakeCons(f, RemoveFirst(Take(u, 10), f), 10);
      }
    }
  }

  /** How far back in the history a file was last accessed. */
  function Age(history: seq<string>, f: string): nat
    requires f in history
  {
    var n := |history| - 1;
    if history[n] == f then 0 else 1 + Age(history[..n], f)
  }

  lemma {:induction false} RemoveFirstKeepsOrder(s: seq<string>, f: string, i: nat, j: nat) returns (k: nat, l: nat)
    requires i < j < |RemoveFirst(s, f)|
    ensures k < l < |s| && s[k] == RemoveFirst(s, f)[i] && s[l] == RemoveFirst(s, f)[j]
  {
    if s[0] == f {
      k, l := i + 1, j + 1;
    } else if i > 0 {
      k, l := RemoveFirstKeepsOrder(s[1..], f, i - 1, j - 1);
      k, l := k + 1, l + 1;
    } else {
      k := 0;
      l := RemoveFirstFrom(s[1..], f, j - 1);
      l := l + 1;
    }
  }

  lemma {:induction false} RemoveFirstFrom(s: seq<string>, f: string, i: nat) returns (k: nat)
    requires i < |RemoveFirst(s, f)|
    ensures k < |s| && s[k] == RemoveFirst(s, f)[i]
  {
    if s[0] == f {
      k := i + 1;
    } else if i > 0 {
      k := RemoveFirstFrom(s[1..], f, i - 1);
      k := k + 1;
    } else {
      k := 0;
    }
  }

  /** The unlimited list has each file ever accessed that is no favourite, once, the most
      recently accessed first. */
  lemma {:induction false} UnlimitedElements(history: seq<string>, favourites: seq<string>)
    ensures Distinct(Unlimited(history, favourites))
    ensures forall f :: f in Unlimited(history, favourites) <==> f in history && f !in favourites
  {
    if history != [] {
      var n := |history| - 1;
      UnlimitedElements(history[..n], favourites);
      assert history == history[..n] + [history[n]];
      RemoveFirstElements(Unlimited(history[..n], favourites), history[n]);
    }
  }

  ghost predicate ByAge(history: seq<string>, u: seq<string>) {
    && (forall f :: f in u ==> f in history)
    && forall i, j :: 0 <= i < j < |u| ==> u[i] in history && u[j] in history && Age(history, u[i]) < Age(history, u[j])
  }

  lemma {:induction false} UnlimitedByAge(history: seq<string>, favourites: seq<string>)
    ensures ByAge(history, Unlimited(history, favourites))
  {
    if history != [] {
      var n := |history| - 1;
      var h, f, before := history[..n], history[n], Unlimited(history[..n], favourites);
      assert history == h + [f];
      UnlimitedByAge(h, favourites);
      UnlimitedElements(h, favourites);
      RemoveFirstElements(before, f);
      if f in favourites {
        OneOlder(history, before);
      } else {
        var rest := RemoveFirst(before, f);
        forall i, j | 0 <= i < j < |rest| ensures rest[i] in h && rest[j] in h && Age(h, rest[i]) < Age(h, rest[j]) {
          var k, l := RemoveFirstKeepsOrder(before, f, i, j);
        }
        OneOlder(history, rest);
        forall j | 0 <= j < |rest| ensures rest[j] in history && Age(history, f) < Age(history, rest[j]) {
          assert rest[j] in rest;
        }
      }
    }
  }

  lemma OneOlder(history: seq<string>, u: seq<string>)
    requires history != [] && ByAge(history[..|history| - 1], u) && history[|history| - 1] !in u
    ensures ByAge(history, u)
  {
    var n := |history| - 1;
    assert history == history[..n] + [history[n]];
    forall i | 0 <= i < |u| ensures u[i] in history && u[i] in history[..n] && Age(history, u[i]) == 1 + Age(history[..n], u[i]) {
      assert u[i] in u;
    }
  }

  // ----- with favourites that come and go -----

  /** The order of wxString::Cmp. */
  predicate Less(a: string, b: string) {
    b != [] && (a == [] || a[0] < b[0] || (a[0] == b[0] && Less(a[1..], b[1..])))
  }

  /** One name is before another if it is the beginning of it, or has the smaller character where
      they first differ. */
  lemma {:induction false} LessMeans(a: string, b: string)
    ensures Less(a, b) <==> exists k :: 0 <= k <= |a| && k < |b| && a[..k] == b[..k] && (k == |a| || a[k] < b[k])
  {
    if b != [] && a != [] && a[0] == b[0] {
      LessMeans(a[1..], b[1..]);
      assert a == [a[0]] + a[1..] && b == [b[0]] + b[1..];
      if k :| 0 <= k <= |a[1..]| && k < |b[1..]| && a[1..][..k] == b[1..][..k] && (k == |a[1..]| || a[1..][k] < b[1..][k]) {
        assert a[..k + 1] == [a[0]] + a[1..][..k] && b[..k + 1] == [b[0]] + b[1..][..k];
      }
      if k :| 0 <= k <= |a| && k < |b| && a[..k] == b[..k] && (k == |a| || a[k] < b[k]) {
        LaterDifference(a, b, k);
      }
    } else if b != [] && (a == [] || a[0] < b[0]) {
      assert a[..0] == b[..0];
    } else if b != [] {
      forall k | 0 < k <= |a| && k < |b| ensures a[..k] != b[..k] {
        assert a[..k][0] != b[..k][0];
      }
    }
  }

  lemma LaterDifference(a: string, b: string, k: nat)
    requires k <= |a| && k < |b| && a[..k] == b[..k] && (k == |a| || a[k] < b[k]) && a != [] && a[0] == b[0]
    ensures k > 0 && a[1..][..k - 1] == b[1..][..k - 1] && (k - 1 == |a[1..]| || a[1..][k - 1] < b[1..][k - 1])
  {
    assert a[1..][..k - 1] == a[..k][1..] && b[1..][..k - 1] == b[..k][1..];
  }

  lemma {:induction false} LessTransitive(a: string, b: string, c: string)
    requires Less(a, b) && Less(b, c)
    ensures Less(a, c)
  {
    if a != [] && a[0] == b[0] == c[0] {
      LessTransitive(a[1..], b[1..], c[1..]);
    }
  }

  lemma {:induction false} LessTotal(a: string, b: string)
    ensures !Less(a, a) && (a == b || Less(a, b) || Less(b, a))
  {
    if a != [] {
      LessTotal(a[1..], if b == [] then b else b[1..]);
      if b != [] && a[0] == b[0] {
        assert a == [a[0]] + a[1..] && b == [b[0]] + b[1..];
      }
    }
  }

  ghost predicate Sorted(s: seq<string>) {
    forall i, j :: 0 <= i < j < |s| ==> Less(s[i], s[j])
  }

  /** Adding to a sorted array. */
  function Add(s: seq<string>, f: string): seq<string> {
    if s == [] then [f] else if Less(s[0], f) then [s[0]] + Add(s[1..], f) else [f] + s
  }

  lemma {:induction false} AddSorted(s: seq<string>, f: string)
    requires Sorted(s) && f !in s
    ensures Sorted(Add(s, f)) && forall g :: g in Add(s, f) <==> g in s || g == f
  {
    if s != [] {
      var tail := s[1..];
      assert s == [s[0]] + tail && forall g :: g in s <==> g == s[0] || g in tail;
      if Less(s[0], f) {
        AddSorted(tail, f);
        var r := Add(tail, f);
        forall k | 0 <= k < |r| ensures Less(s[0], r[k]) {
          assert r[k] in r;
          if r[k] != f {
            var j :| 0 <= j < |tail| && tail[j] == r[k];
          }
        }
      } else {
        LessTotal(s[0], f);
        forall k | 0 <= k < |s| ensures Less(f, s[k]) {
          if k > 0 {
            LessTransitive(f, s[0], s[k]);
          }
        }
      }
    }
  }

  class FileLists {
    var recents: seq<string>
    var favourites: seq<string>

    /** Recent files: at most ten, no file twice and no favourite; favourites in order, and
        so no file twice either. */
    ghost predicate Valid()
      reads this
    {
      && |recents| <= 10 && Distinct(recents) && Sorted(favourites)
      && forall f :: f in recents ==> f !in favourites
    }

    constructor ()
      ensures Valid() && recents == [] && favourites == []
    {
      recents, favourites := [], [];
    }

    /** Take a file out of the recent ones, if it is there. */
    method Remove(f: string)
      requires Valid()
      modifies this`recents
      ensures Valid() && recents == RemoveFirst(old(recents), f) && f !in recents
    {
      var i := 0;
      while i < |recents| && recents[i] != f
        invariant 0 <= i <= |recents| && recents == old(recents)
        invariant RemoveFirst(recents, f) == recents[..i] + RemoveFirst(recents[i..], f)
      {
        assert recents[i..][1..] == recents[i + 1..];
        i := i + 1;
      }
      RemoveFirstElements(recents, f);
      assert i < |recents| ==> recents[i..][1..] == recents[i + 1..];
      if i < |recents| {
        recents := recents[..i] + recents[i + 1..];
      } else {
        assert recents[..i] == recents;
      }
    }

    method UpdateRecentFiles(f: string)
      requires Valid()
      modifies this`recents
      ensures Valid() && recents == Updated(old(recents), favourites, f)
    {
      if f !in favourites {
        Remove(f);
        recents := [f] + recents;
        assert Distinct(recents);
        var newCount := |recents|;
        if newCount > 10 {
          recents := recents[..10];
        }
      }
    }

    /** The button of a favourite in the organiser. */
    method DropFavourite(index: nat)
      requires Valid() && index < |favourites|
      modifies this`favourites
      ensures Valid() && favourites == old(favourites)[..index] + old(favourites)[index + 1..]
      ensures forall g :: g in favourites <==> g in old(favourites) && g != old(favourites)[index]
    {
      ghost var was := favourites;
      SortedDistinct(was);
      favourites := favourites[..index] + favourites[index + 1..];
      assert was == was[..index] + [was[index]] + was[index + 1..];
    }

    /** The button of a recent file in the organiser. */
    method Promote(index: nat)
      requires Valid() && index < |recents|
      modifies this
      ensures Valid() && recents == old(recents)[..index] + old(recents)[index + 1..]
      ensures forall g :: g in favourites <==> g in old(favourites) || g == old(recents)[index]
    {
      ghost var was := recents;
      var f := recents[index];
      recents := recents[..index] + recents[index + 1..];
      assert was == was[..index] + [f] + was[index + 1..];
      AddSorted(favourites, f);
      favourites := Add(favourites, f);
      assert f !in recents;
    }
  }

  lemma SortedDistinct(s: seq<string>)
    requires Sorted(s)
    ensures Distinct(s)
  {
    forall i, j | 0 <= i < j < |s| ensures s[i] != s[j] {
      LessTotal(s[i], s[i]);
    }
  }
}
