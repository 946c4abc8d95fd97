/** Object keys: their order, and the names and directories inside them. */
module Keys {

  predicate Less(a: string, b: string) {
    b != [] && (a == [] || a[0] < b[0] || (a[0] == b[0] && Less(a[1..], b[1..])))
  }

  lemma {:induction false} LessIrreflexive(a: string)
    ensures !Less(a, a)
  {
    if a != [] {
      LessIrreflexive(a[1..]);
    }
  }

  lemma {:induction false} LessTransitive(a: string, b: string, c: string)
    requires Less(a, b) && Less(b, c)
    ensures Less(a, c)
  {
    if a != [] && a[0] == b[0] && b[0] == c[0] {
      LessTransitive(a[1..], b[1..], c[1..]);
    }
  }

  lemma {:induction false} LessTotal(a: string, b: string)
    ensures a == b || Less(a, b) || Less(b, a)
  {
    if a != [] && b != [] && a[0] == b[0] {
      LessTotal(a[1..], b[1..]);
      assert a == [a[0]] + a[1..] && b == [b[0]] + b[1..];
    }
  }

  /** A key comes before its own extensions. */
  lemma {:induction false} LessExtension(a: string, x: string)
    requires x != []
    ensures Less(a, a + x)
  {
    if a != [] {
      assert (a + x)[1..] == a[1..] + x;
      LessExtension(a[1..], x);
    }
  }

  /** Keys are ordered by the first character in which they differ. */
  lemma {:induction false} FirstDifferenceDecides(p: string, x: char, a: string, y: char, b: string)
    requires x != y
    ensures Less(p + [x] + a, p + [y] + b) <==> x < y
  {
    if p == [] {
      assert (p + [x] + a)[0] == x && (p + [y] + b)[0] == y;
    } else {
      assert (p + [x] + a)[1..] == p[1..] + [x] + a && (p + [y] + b)[1..] == p[1..] + [y] + b;
      FirstDifferenceDecides(p[1..], x, a, y, b);
    }
  }

  ghost predicate Least(k: string, keys: set<string>) {
    k in keys && forall j <- keys :: j == k || Less(k, j)
  }

  lemma {:induction false} LeastExists(keys: set<string>) returns (k: string)
    requires keys != {}
    ensures Least(k, keys)
    decreases |keys|
  {
    k :| k in keys;
    var rest := keys - {k};
    if rest != {} {
      var j := LeastExists(rest);
      LessTotal(j, k);
      if Less(j, k) {
        k := j;
      } else {
        forall i <- keys ensures i == k || Less(k, i) {
          if i != k && i != j {
            LessTransitive(k, j, i);
          }
        }
      }
    }
  }

  ghost predicate Increasing(keys: seq<string>) {
    forall i, j | 0 <= i < j < |keys| :: Less(keys[i], keys[j])
  }

  /** What follows the last slash. */
  function Name(key: string): (n: string)
    ensures |n| <= |key| && '/' !in n
  {
    if key == [] || key[|key| - 1] == '/' then [] else Name(key[..|key| - 1]) + [key[|key| - 1]]
  }

  lemma {:induction false} NameAfterSlash(p: string, n: string)
    requires '/' !in n
    ensures Name(p + "/" + n) == n
  {
    var key := p + "/" + n;
    if n == [] {
      assert key[|key| - 1] == '/';
    } else {
      var m := n[..|n| - 1];
      assert key[..|key| - 1] == p + "/" + m;
      NameAfterSlash(p, m);
      assert n == m + [n[|n| - 1]];
    }
  }

  /** One trailing slash, if any, removed. */
  function TrimSlash(s: string): string {
    if s != [] && s[|s| - 1] == '/' then s[..|s| - 1] else s
  }

  lemma {:induction false} TrimsOneSlash(s: string)
    ensures TrimSlash(s + "/") == s
    ensures s == "" || s[|s| - 1] != '/' ==> TrimSlash(s) == s
  {
    assert (s + "/")[..|s|] == s;
  }

  /** A key without a slash is its own name. */
  lemma {:induction false} NameOfOne(n: string)
    requires '/' !in n
    ensures Name(n) == n
  {
    if n != [] {
      NameOfOne(n[..|n| - 1]);
      assert n == n[..|n| - 1] + [n[|n| - 1]];
    }
  }

  lemma {:induction false} NoSlashInside(p: string, a: string, key: string, i: nat)
    requires '/' !in a && p + a + "/" <= key && |p| <= i < |p| + |a|
    ensures key[i] != '/'
  {
    assert key[i] == (p + a + "/")[i] == a[i - |p|];
  }

  /** Directories with different slash-free names hold no key in common. */
  lemma {:induction false} DirectoriesDisjoint(p: string, a: string, b: string, key: string)
    requires '/' !in a && '/' !in b && p + a + "/" <= key && p + b + "/" <= key
    ensures a == b
  {
    var i, j := |p + a|, |p + b|;
    assert key[i] == '/' && key[j] == '/';
    if i < j {
      NoSlashInside(p, b, key, i);
    } else if j < i {
      NoSlashInside(p, a, key, j);
    } else {
      assert p + a == key[..i] && p + b == key[..i];
      assert a == (p + a)[|p|..] && b == (p + b)[|p|..];
    }
  }
}
