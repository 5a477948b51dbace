/** The key order of a `std::map<std::string, _>`: keys are compared as `std::string::compare`
    does (character by character, a proper prefix first), and iteration visits them in
    strictly ascending order. */
module OrderedKeys {

  /** `a < b` for strings: lexicographic, a proper prefix comes first. */
  predicate Below(a: string, b: string)
    decreases |a|
  {
    if |a| == 0 then |b| > 0
    else if |b| == 0 then false
    else if a[0] == b[0] then Below(a[1..], b[1..])
    else a[0] < b[0]
  }

  lemma {:induction false} BelowIrreflexive(a: string)
    ensures !Below(a, a)
    decreases |a|
  {
    if |a| > 0 {
      BelowIrreflexive(a[1..]);
    }
  }

  lemma {:induction false} BelowTransitive(a: string, b: string, c: string)
    requires Below(a, b) && Below(b, c)
    ensures Below(a, c)
    decreases |a|
  {
    if |a| > 0 && a[0] == b[0] && b[0] == c[0] {
      BelowTransitive(a[1..], b[1..], c[1..]);
    }
  }

  lemma {:induction false} BelowAsymmetric(a: string, b: string)
    requires Below(a, b)
    ensures !Below(b, a)
    decreases |a|
  {
    if |a| > 0 && a[0] == b[0] {
      BelowAsymmetric(a[1..], b[1..]);
    }
  }

  /** Any two different strings are ordered one way or the other. */
  lemma {:induction false} BelowTotal(a: string, b: string)
    ensures a == b || Below(a, b) || Below(b, a)
    decreases |a|
  {
    if |a| > 0 && |b| > 0 && a[0] == b[0] {
      BelowTotal(a[1..], b[1..]);
      if a[1..] == b[1..] {
        assert a == [a[0]] + a[1..] && b == [b[0]] + b[1..];
      }
    }
  }

  /** The keys of a map as its in-order traversal lists them. */
  ghost predicate Ascending(s: seq<string>) {
    forall i, j :: 0 <= i < j < |s| ==> Below(s[i], s[j])
  }

  /** Where `try_emplace` puts a new key in the traversal; an existing key leaves it as it is. */
  function Insert(s: seq<string>, k: string): (r: seq<string>)
    requires Ascending(s)
    ensures Ascending(r)
    ensures forall x :: x in r <==> x in s || x == k
    decreases |s|
  {
    if s == [] then [k]
    else if s[0] == k then s
    else if Below(k, s[0]) then
      assert forall i :: 0 < i < |s| ==> Below(k, s[i]) by {
        forall i | 0 < i < |s| ensures Below(k, s[i]) {
          BelowTransitive(k, s[0], s[i]);
        }
      }
      [k] + s
    else
      BelowTotal(k, s[0]);
      var t := Insert(s[1..], k);
      assert forall x :: x in t ==> Below(s[0], x);
      [s[0]] + t
  }

  /** The traversal after `erase` of a key. */
  function Remove(s: seq<string>, k: string): (r: seq<string>)
    requires Ascending(s)
    ensures Ascending(r)
    ensures forall x :: x in r <==> x in s && x != k
    decreases |s|
  {
    if s == [] then []
    else if s[0] == k then
      BelowIrreflexiveAll(s);
      s[1..]
    else
      var t := Remove(s[1..], k);
      assert forall x :: x in t ==> Below(s[0], x);
      [s[0]] + t
  }

  /** In an ascending traversal no key appears twice. */
  lemma BelowIrreflexiveAll(s: seq<string>)
    requires Ascending(s)
    ensures forall i, j :: 0 <= i < j < |s| ==> s[i] != s[j]
  {
    forall i, j | 0 <= i < j < |s| ensures s[i] != s[j] {
      BelowIrreflexive(s[i]);
    }
  }

  /** The traversal order is determined by the set of keys alone. */
  lemma {:induction false} AscendingUnique(a: seq<string>, b: seq<string>)
    requires Ascending(a) && Ascending(b)
    requires forall x :: x in a <==> x in b
    ensures a == b
    decreases |a|
  {
    if a != [] {
      assert a[0] in b;
    }
    if b != [] {
      assert b[0] in a;
    }
    if a != [] && b != [] {
      if a[0] != b[0] {
        assert b[0] in a && a[0] in b;
        var i :| 0 <= i < |a| && a[i] == b[0];
        var j :| 0 <= j < |b| && b[j] == a[0];
        assert Below(a[0], b[0]);
        assert Below(b[0], a[0]);
        BelowAsymmetric(a[0], b[0]);
      }
      BelowIrreflexiveAll(a);
      BelowIrreflexiveAll(b);
      forall x ensures x in a[1..] <==> x in b[1..] {
        if x in a[1..] {
          var i :| 1 <= i < |a| && a[i] == x;
          assert x != a[0] && x in a;
          var j :| 0 <= j < |b| && b[j] == x;
          assert j != 0;
          assert b[1..][j - 1] == x;
        }
        if x in b[1..] {
          var j :| 1 <= j < |b| && b[j] == x;
          assert x != b[0] && x in b;
          var i :| 0 <= i < |a| && a[i] == x;
          assert i != 0;
          assert a[1..][i - 1] == x;
        }
      }
      AscendingUnique(a[1..], b[1..]);
      assert a == [a[0]] + a[1..] && b == [b[0]] + b[1..];
    }
  }
}
