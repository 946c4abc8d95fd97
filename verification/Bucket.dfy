/** A bucket whose listings come in pages, in key order. */
module Bucket {
  import opened Bytes
  import opened Records
  import opened Keys
  import opened Collections

  function Matching(objects: map<string, seq<byte>>, prefix: string): set<string> {
    set k | k in objects && prefix <= k
  }

  /** The keys of a listing that come after a continuation token. */
  function Pending(all: set<string>, token: Option<string>): set<string> {
    set k | k in all && (token.None? || Less(token.value, k))
  }

  /** A page: some first keys of what is pending, and all of it unless truncated. */
  ghost predicate PageOf(pending: set<string>, page: seq<string>, truncated: bool) {
    && Increasing(page) && (forall k <- page :: k in pending)
    && (truncated ==> page != [])
    && forall k <- pending :: k in page || (truncated && Less(page[|page| - 1], k))
  }

  /** All of a set of keys, in order. */
  ghost predicate ListsAll(all: set<string>, keys: seq<string>) {
    Increasing(keys) && forall k :: k in keys <==> k in all
  }

  ghost predicate Lists(objects: map<string, seq<byte>>, prefix: string, keys: seq<string>) {
    ListsAll(Matching(objects, prefix), keys)
  }

  /** Taking the least pending keys one by one makes a page. */
  method TakePage(pending: set<string>, limit: nat) returns (page: seq<string>, truncated: bool)
    requires limit >= 1
    ensures PageOf(pending, page, truncated)
  {
    page := [];
    var left := pending;
    while |page| < limit && left != {}
      invariant Increasing(page) && (forall k :: k in pending <==> k in page || k in left)
      invariant forall k <- page, j <- left :: Less(k, j)
      invariant left == {} || page != [] || |page| < limit
      decreases |left|
    {
      ghost var least := LeastExists(left);
      var k :| k in left && forall j <- left :: j == k || Less(k, j);
      page := page + [k];
      left := left - {k};
    }
    truncated := left != {};
  }

  /** `after` is `before` without some of the keys in `gone`. */
  ghost predicate Shrunk(before: map<string, seq<byte>>, after: map<string, seq<byte>>, gone: set<string>) {
    && (forall k <- after :: k in before && after[k] == before[k])
    && (forall k <- before :: k in after || k in gone)
  }

  class Bucket {
    var objects: map<string, seq<byte>>
    const pageSize: nat

    /** Which of the coming calls of a deletion fail; after the last of them none does. */
    var faults: seq<bool>

    constructor (pageSize: nat, faults: seq<bool>)
      ensures objects == map[] && this.pageSize == pageSize && this.faults == faults
    {
      objects, this.pageSize, this.faults := map[], pageSize, faults;
    }

    method Call() returns (ok: bool)
      modifies this`faults
      ensures ok <==> old(faults) == [] || !old(faults)[0]
      ensures old(faults) == [] ==> faults == []
    {
      if faults == [] {
        return true;
      }
      ok, faults := !faults[0], faults[1..];
    }

    method ListPage(prefix: string, token: Option<string>) returns (page: seq<string>, truncated: bool)
      requires pageSize >= 1
      ensures PageOf(Pending(Matching(objects, prefix), token), page, truncated)
    {
      page, truncated := TakePage(Pending(Matching(objects, prefix), token), pageSize);
    }

    /** Every key under the prefix, whatever the page size. */
    method ListKeys(prefix: string) returns (keys: seq<string>)
      requires pageSize >= 1
      ensures Lists(objects, prefix, keys)
    {
      keys := [];
      var token: Option<string> := None;
      while true
        invariant ListedTo(Matching(objects, prefix), keys, token)
        decreases |Pending(Matching(objects, prefix), token)|
      {
        var page, truncated := ListPage(prefix, token);
        Listed(Matching(objects, prefix), keys, token, page, truncated);
        keys := keys + page;
        if !truncated {
          return;
        }
        PendingShrinks(Matching(objects, prefix), token, page);
        token := Some(page[|page| - 1]);
      }
    }

    /** Deletes the keys in order, stopping at the first error. */
    method DeleteAll(keys: seq<string>) returns (ok: bool)
      modifies this
      ensures if ok then objects == old(objects) - Elements(keys) else Shrunk(old(objects), objects, Elements(keys))
      ensures old(faults) == [] ==> ok && faults == []
    {
      for i := 0 to |keys|
        invariant objects == old(objects) - Elements(keys[..i])
        invariant old(faults) == [] ==> faults == []
      {
        assert keys[..i + 1] == keys[..i] + [keys[i]];
        ok := Call();
        if !ok {
          return;
        }
        objects := objects - {keys[i]};
      }
      assert keys[..|keys|] == keys;
      return true;
    }

    /** Deletes page by page, listing again after each: exactly the keys under the prefix go, or, when a call fails,
        some of them. */
    method DeletePrefix(prefix: string) returns (ok: bool)
      requires pageSize >= 1
      modifies this
      ensures if ok then objects == old(objects) - Matching(old(objects), prefix)
              else Shrunk(old(objects), objects, Matching(old(objects), prefix))
      ensures old(faults) == [] ==> ok && faults == []
    {
      ghost var before := objects;
      var token: Option<string> := None;
      while true
        invariant DeletedTo(before, prefix, token, objects)
        invariant old(faults) == [] ==> faults == []
        decreases |Pending(Matching(before, prefix), token)|
      {
        ok := Call();
        if !ok {
          return;
        }
        StillPending(before, prefix, token, objects);
        var page, truncated := ListPage(prefix, token);
        PageDeleted(before, prefix, token, objects, page, truncated);
        ok := DeleteAll(page);
        if !ok || !truncated {
          return;
        }
        PendingShrinks(Matching(before, prefix), token, page);
        token := Some(page[|page| - 1]);
      }
    }
  }

  /** What is left once everything up to the token has been deleted. */
  ghost predicate DeletedTo(before: map<string, seq<byte>>, prefix: string, token: Option<string>,
                            objects: map<string, seq<byte>>) {
    objects == before - (Matching(before, prefix) - Pending(Matching(before, prefix), token))
  }

  lemma {:induction false} StillPending(before: map<string, seq<byte>>, prefix: string, token: Option<string>,
                                        objects: map<string, seq<byte>>)
    requires DeletedTo(before, prefix, token, objects)
    ensures Pending(Matching(objects, prefix), token) == Pending(Matching(before, prefix), token)
  {
  }

  lemma {:induction false} PageDeleted(before: map<string, seq<byte>>, prefix: string, token: Option<string>,
                                       objects: map<string, seq<byte>>, page: seq<string>, truncated: bool)
    requires DeletedTo(before, prefix, token, objects)
    requires PageOf(Pending(Matching(before, prefix), token), page, truncated)
    ensures truncated ==> DeletedTo(before, prefix, Some(page[|page| - 1]), objects - Elements(page))
    ensures !truncated ==> objects - Elements(page) == before - Matching(before, prefix)
  {
    if truncated {
      PendingAfter(Matching(before, prefix), token, page);
    }
  }

  /** `keys` holds what a listing has seen before the token. */
  ghost predicate ListedTo(all: set<string>, keys: seq<string>, token: Option<string>) {
    && Increasing(keys)
    && (forall k :: k in keys <==> k in all && k !in Pending(all, token))
    && (token.None? ==> keys == [])
    && (token.Some? ==> keys != [] && token.value == keys[|keys| - 1])
  }

  lemma {:induction false} IncreasingConcat(a: seq<string>, b: seq<string>)
    requires Increasing(a) && Increasing(b) && (a != [] ==> forall k <- b :: Less(a[|a| - 1], k))
    ensures Increasing(a + b)
  {
    var s := a + b;
    forall i, j | 0 <= i < j < |s| ensures Less(s[i], s[j]) {
      if i < |a| <= j {
        assert s[j] in b;
        if i < |a| - 1 {
          LessTransitive(a[i], a[|a| - 1], s[j]);
        }
      }
    }
  }

  lemma {:induction false} BeforeLast(page: seq<string>, k: string)
    requires Increasing(page) && page != [] && k in page
    ensures !Less(page[|page| - 1], k)
  {
    var i :| 0 <= i < |page| && page[i] == k;
    var last := page[|page| - 1];
    if Less(last, k) {
      if i < |page| - 1 {
        LessTransitive(last, k, last);
      }
      LessIrreflexive(last);
    }
  }

  /** What is pending after a page is what was pending before it and is not in it. */
  lemma {:induction false} PendingAfter(all: set<string>, token: Option<string>, page: seq<string>)
    requires PageOf(Pending(all, token), page, true)
    ensures Pending(all, Some(page[|page| - 1])) == Pending(all, token) - Elements(page)
  {
    var last := page[|page| - 1];
    forall k | k in all
      ensures k in Pending(all, Some(last)) <==> k in Pending(all, token) && k !in page
    {
      if k in page {
        BeforeLast(page, k);
      } else if Less(last, k) && token.Some? {
        assert last in page;
        LessTransitive(token.value, last, k);
      }
    }
  }

  lemma {:induction false} SmallerSet(a: set<string>, b: set<string>)
    requires a < b
    ensures |a| < |b|
  {
    assert b == a + (b - a) && b - a != {};
  }

  lemma {:induction false} PendingShrinks(all: set<string>, token: Option<string>, page: seq<string>)
    requires PageOf(Pending(all, token), page, true)
    ensures Pending(all, Some(page[|page| - 1])) == Pending(all, token) - Elements(page)
    ensures |Pending(all, Some(page[|page| - 1]))| < |Pending(all, token)|
  {
    PendingAfter(all, token, page);
    assert page[0] in Pending(all, token) && page[0] in Elements(page);
    SmallerSet(Pending(all, Some(page[|page| - 1])), Pending(all, token));
  }

  lemma {:induction false} Listed(all: set<string>, keys: seq<string>, token: Option<string>, page: seq<string>,
                                  truncated: bool)
    requires ListedTo(all, keys, token) && PageOf(Pending(all, token), page, truncated)
    ensures truncated ==> ListedTo(all, keys + page, Some(page[|page| - 1]))
    ensures !truncated ==> ListsAll(all, keys + page)
  {
    IncreasingConcat(keys, page);
    if truncated {
      PendingAfter(all, token, page);
    }
  }

  /** Two ordered lists agree as far as one holds the least keys of the other. */
  lemma {:induction false} LeastKeysAgree(a: seq<string>, b: seq<string>, i: nat)
    requires Increasing(a) && Increasing(b) && i < |a|
    requires forall k <- a :: k in b
    requires forall k <- b :: k in a || Less(a[|a| - 1], k)
    ensures i < |b| && a[i] == b[i]
  {
    if i > 0 {
      LeastKeysAgree(a, b, i - 1);
    }
    forall h | 0 <= h < i ensures h < |b| && a[h] == b[h] {
      LeastKeysAgree(a, b, h);
    }
    assert a[i] in b;
    var j :| 0 <= j < |b| && b[j] == a[i];
    if j < i {
      LessIrreflexive(a[i]);
    } else if i < j {
      assert Less(b[i], a[i]) && b[i] in b;
      if b[i] in a {
        var h :| 0 <= h < |a| && a[h] == b[i];
        if h < i {
          LessIrreflexive(b[i]);
        } else if h == i {
          LessIrreflexive(a[i]);
        } else {
          LessTransitive(a[i], a[h], a[i]);
          LessIrreflexive(a[i]);
        }
      } else {
        var last := a[|a| - 1];
        LessTransitive(last, b[i], a[i]);
        BeforeLast(a, a[i]);
      }
    }
  }

  /** What has been listed so far begins the whole listing. */
  lemma {:induction false} ListingStartsWith(all: set<string>, done: seq<string>, truncated: bool, keys: seq<string>)
    requires ListsAll(all, keys)
    requires if truncated then done != [] && ListedTo(all, done, Some(done[|done| - 1])) else ListsAll(all, done)
    ensures done <= keys && (!truncated ==> done == keys)
  {
    forall i | 0 <= i < |done| ensures i < |keys| && done[i] == keys[i] {
      LeastKeysAgree(done, keys, i);
    }
    if done != [] {
      LeastKeysAgree(done, keys, |done| - 1);
    }
    if !truncated && |keys| > 0 {
      LeastKeysAgree(keys, done, |keys| - 1);
    }
  }

  /** Any set of keys can be put in order. */
  lemma {:induction false} ListingExists(objects: map<string, seq<byte>>, prefix: string) returns (keys: seq<string>)
    ensures Lists(objects, prefix, keys)
  {
    keys := OrderExists(Matching(objects, prefix));
  }

  lemma {:induction false} OrderExists(all: set<string>) returns (keys: seq<string>)
    ensures ListsAll(all, keys)
    decreases |all|
  {
    if all == {} {
      keys := [];
    } else {
      var k := LeastExists(all);
      var rest := OrderExists(all - {k});
      keys := [k] + rest;
      forall j <- rest ensures Less(k, j) {
      }
    }
  }
}
