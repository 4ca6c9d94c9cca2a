/** Shared vocabulary of the four entity services: optional values, the two
    kinds of failure the services raise, the allow/deny outcome of a gate,
    the permission matrix the role lookups feed, string matching as the
    store's `contains` filter does it, and the newest-first paged listing
    that every `getAll` returns. */
module Common {

  /** Record ids (cuid strings in the store). */
  type Id = string

  /** `Date` values, as integer timestamps. */
  type Timestamp = int

  datatype Option<T> = None | Some(value: T) {
    function GetOr(default: T): T {
      if Some? then value else default
    }
  }

  /** A JavaScript `if (x)` on an optional string: present and not empty. */
  predicate Given(s: Option<string>) {
    s.Some? && s.value != ""
  }

  /** The services throw either an `UnauthorizedException` (a denied action)
      or a plain `Error` (a missing record, a uniqueness conflict, a failed
      store write); each carries its message. */
  datatype Failure = Unauthorized(message: string) | Failed(message: string)

  datatype Result<T> = Ok(value: T) | Err(failure: Failure)

  /** The outcome of a permission check: it returns, or it throws. */
  datatype Gate = Pass | Deny(failure: Failure)

  /** Messages of the store's own errors (not raised by the services'
      code, but by the store when a write finds no row or breaks a unique
      index). */
  const RecordNotFound := "Record not found"
  const UniqueConstraintFailed := "Unique constraint failed"

  // ---------------------------------------------------------------------
  // Roles and the permission matrix

  /** One row of a role's permission list. */
  datatype Permission = Permission(action: string, subject: string)

  datatype Role = Role(id: nat, name: string, permission: seq<Permission>)

  /** The signature of `hasPermission(permissions, action, subject)`, whose
      definition is not part of this model: the services take it as a
      parameter and every property is proved for all of its values. */
  type Matrix = (seq<Permission>, string, string) -> bool

  // ---------------------------------------------------------------------
  // String filters

  /** `needle` occurs in `haystack` starting at position `i`. */
  predicate OccursAt(haystack: string, needle: string, i: int) {
    0 <= i && i + |needle| <= |haystack| && haystack[i..i + |needle|] == needle
  }

  /** The store's `contains` filter: `needle` is a substring of `haystack`
      (compared character by character, so case-sensitive). */
  predicate Contains(haystack: string, needle: string)
    decreases |haystack|
  {
    needle <= haystack || (|haystack| > 0 && Contains(haystack[1..], needle))
  }

  lemma {:induction false} ContainsHasOccurrence(haystack: string, needle: string)
    requires Contains(haystack, needle)
    ensures exists i :: OccursAt(haystack, needle, i)
    decreases |haystack|
  {
    if needle <= haystack {
      assert OccursAt(haystack, needle, 0);
    } else {
      var tail := haystack[1..];
      ContainsHasOccurrence(tail, needle);
      var i :| OccursAt(tail, needle, i);
      assert haystack[i + 1..i + 1 + |needle|] == tail[i..i + |needle|];
      assert OccursAt(haystack, needle, i + 1);
    }
  }

  lemma {:induction false} OccurrenceIsContained(haystack: string, needle: string, i: int)
    requires OccursAt(haystack, needle, i)
    ensures Contains(haystack, needle)
    decreases i
  {
    if i == 0 {
      assert haystack[..|needle|] == needle;
    } else {
      var tail := haystack[1..];
      assert tail[i - 1..i - 1 + |needle|] == haystack[i..i + |needle|];
      OccurrenceIsContained(tail, needle, i - 1);
    }
  }

  /** `Contains` holds exactly when the needle occurs at some position. */
  lemma ContainsIff(haystack: string, needle: string)
    ensures Contains(haystack, needle) <==> exists i :: OccursAt(haystack, needle, i)
  {
    if Contains(haystack, needle) {
      ContainsHasOccurrence(haystack, needle);
    }
    if i :| OccursAt(haystack, needle, i) {
      OccurrenceIsContained(haystack, needle, i);
    }
  }

  function LowerChar(c: char): char {
    if 'A' <= c <= 'Z' then (c as int + 32) as char else c
  }

  /** ASCII lower-casing; the store's full Unicode case folding is not
      modelled. */
  function Lower(s: string): (r: string)
    ensures |r| == |s|
    ensures forall i :: 0 <= i < |s| ==> r[i] == LowerChar(s[i])
  {
    seq(|s|, i requires 0 <= i < |s| => LowerChar(s[i]))
  }

  /** The store's `contains` filter with `mode: 'insensitive'`. */
  predicate ContainsInsensitive(haystack: string, needle: string) {
    Contains(Lower(haystack), Lower(needle))
  }

  /** Every case-sensitive match is also a case-insensitive one, so an
      insensitive filter never drops a row the sensitive one keeps. */
  lemma CaseSensitiveMatchIsInsensitiveMatch(haystack: string, needle: string)
    requires Contains(haystack, needle)
    ensures ContainsInsensitive(haystack, needle)
  {
    ContainsIff(haystack, needle);
    var i :| OccursAt(haystack, needle, i);
    var h, n := Lower(haystack), Lower(needle);
    assert h[i..i + |n|] == n by {
      forall k | 0 <= k < |n|
        ensures h[i..i + |n|][k] == n[k]
      {
        assert haystack[i..i + |needle|][k] == needle[k];
      }
    }
    assert OccursAt(h, n, i);
    ContainsIff(h, n);
  }

  /** A `createdFrom`/`createdTo` filter: inclusive bounds, each applied
      only when given. */
  predicate InRange(t: Timestamp, from: Option<Timestamp>, to: Option<Timestamp>) {
    (from.Some? ==> from.value <= t) && (to.Some? ==> t <= to.value)
  }

  // ---------------------------------------------------------------------
  // Newest-first paged listings

  /** What every `getAll` returns: one page of rows, the size of the whole
      filtered set, and the page and limit it used. */
  datatype Listing<T> = Listing(items: seq<T>, total: nat, page: nat, limit: nat)

  /** The defaults of the `page = 1, limit = 10` destructuring. */
  function PageOf(page: Option<nat>): nat {
    page.GetOr(1)
  }

  function LimitOf(limit: Option<nat>): nat {
    limit.GetOr(10)
  }

  function Min(a: int, b: int): int {
    if a <= b then a else b
  }

  /** The store's `skip`/`take` on an ordered result: drop `skip` rows,
      then keep at most `take`. */
  function SkipTake<T>(s: seq<T>, skip: nat, take: nat): (r: seq<T>)
    ensures |r| <= take
    ensures skip <= |s| ==> |r| == Min(take, |s| - skip)
    ensures skip >= |s| ==> r == []
    ensures forall i :: 0 <= i < |r| ==> skip + i < |s| && r[i] == s[skip + i]
  {
    if skip >= |s| then [] else s[skip..Min(skip + take, |s|)]
  }

  ghost predicate IsLatest<K>(keys: set<K>, stamps: map<K, Timestamp>, k: K)
    requires keys <= stamps.Keys
  {
    k in keys && forall k' :: k' in keys ==> stamps[k'] <= stamps[k]
  }

  lemma {:induction false} LatestExists<K>(keys: set<K>, stamps: map<K, Timestamp>)
    requires keys <= stamps.Keys && keys != {}
    ensures exists k :: IsLatest(keys, stamps, k)
    decreases keys
  {
    var k0 :| k0 in keys;
    var rest := keys - {k0};
    if rest == {} {
      assert keys == {k0};
      assert IsLatest(keys, stamps, k0);
    } else {
      LatestExists(rest, stamps);
      var k1 :| IsLatest(rest, stamps, k1);
      if stamps[k0] <= stamps[k1] {
        assert IsLatest(keys, stamps, k1);
      } else {
        assert IsLatest(keys, stamps, k0);
      }
    }
  }

  /** The keys ordered by descending timestamp (`orderBy: { createdAt:
      'desc' }`); the order among equal timestamps is left to the store,
      so the model picks one. */
  ghost function NewestFirst<K>(keys: set<K>, stamps: map<K, Timestamp>): (r: seq<K>)
    requires keys <= stamps.Keys
    ensures |r| == |keys|
    ensures forall i :: 0 <= i < |r| ==> r[i] in keys
    ensures forall k :: k in keys ==> k in r
    ensures forall i, j :: 0 <= i < j < |r| ==> r[i] != r[j]
    ensures forall i, j :: 0 <= i < j < |r| ==> stamps[r[i]] >= stamps[r[j]]
    decreases keys
  {
    if keys == {} then []
    else
      LatestExists(keys, stamps);
      var k :| IsLatest(keys, stamps, k);
      [k] + NewestFirst(keys - {k}, stamps)
  }

  /** How many rows a page skips: `(page - 1) * limit`. */
  function Skip(page: nat, limit: nat): nat
    requires page >= 1
  {
    (page - 1) * limit
  }

  /** The keys of one page of a newest-first listing of `keys`. */
  ghost function PageKeys<K>(keys: set<K>, stamps: map<K, Timestamp>, page: nat, limit: nat): (r: seq<K>)
    requires keys <= stamps.Keys && page >= 1
    ensures |r| <= limit
    ensures Skip(page, limit) <= |keys| ==> |r| == Min(limit, |keys| - Skip(page, limit))
    ensures forall i :: 0 <= i < |r| ==>
              Skip(page, limit) + i < |keys| && r[i] == NewestFirst(keys, stamps)[Skip(page, limit) + i]
    ensures forall i :: 0 <= i < |r| ==> r[i] in keys
    ensures forall i, j :: 0 <= i < j < |r| ==> r[i] != r[j]
    ensures forall i, j :: 0 <= i < j < |r| ==> stamps[r[i]] >= stamps[r[j]]
  {
    var order := NewestFirst(keys, stamps);
    var r := SkipTake(order, Skip(page, limit), limit);
    assert forall i :: 0 <= i < |r| ==> r[i] == order[Skip(page, limit) + i];
    r
  }

  /** The rows stored under the given keys, in order. */
  function RowsOf<K, T>(keys: seq<K>, rows: map<K, T>): (r: seq<T>)
    requires forall i :: 0 <= i < |keys| ==> keys[i] in rows
    ensures |r| == |keys|
    ensures forall i :: 0 <= i < |keys| ==> r[i] == rows[keys[i]]
  {
    seq(|keys|, i requires 0 <= i < |keys| => rows[keys[i]])
  }

  /** Rows looked up by distinct keys in timestamp order carry those keys,
      distinct and in the same order. */
  lemma RowsKeepKeyOrder<K, T>(ids: seq<K>, stamps: map<K, Timestamp>, rows: map<K, T>, key: T -> K)
    requires forall i :: 0 <= i < |ids| ==> ids[i] in rows && ids[i] in stamps
    requires forall k :: k in rows ==> key(rows[k]) == k
    requires forall i, j :: 0 <= i < j < |ids| ==> ids[i] != ids[j] && stamps[ids[i]] >= stamps[ids[j]]
    ensures forall i :: 0 <= i < |ids| ==> key(RowsOf(ids, rows)[i]) == ids[i]
    ensures forall i, j :: 0 <= i < j < |ids| ==>
              key(RowsOf(ids, rows)[i]) != key(RowsOf(ids, rows)[j])
              && stamps[key(RowsOf(ids, rows)[i])] >= stamps[key(RowsOf(ids, rows)[j])]
  {
    var r := RowsOf(ids, rows);
    assert forall i :: 0 <= i < |ids| ==> key(r[i]) == ids[i];
  }

  /** One newest-first page of the rows stored under `keys`: the row of
      each key of `PageKeys`, in order. `key` is a row's own key. */
  ghost function PageRows<K, T>(keys: set<K>, stamps: map<K, Timestamp>, rows: map<K, T>, key: T -> K,
                                page: nat, limit: nat): (r: seq<T>)
    requires keys <= stamps.Keys && keys <= rows.Keys && page >= 1
    requires forall k :: k in rows ==> key(rows[k]) == k
    ensures |r| == |PageKeys(keys, stamps, page, limit)|
    ensures forall i :: 0 <= i < |r| ==>
              key(r[i]) == PageKeys(keys, stamps, page, limit)[i] && rows[key(r[i])] == r[i]
  {
    var ids := PageKeys(keys, stamps, page, limit);
    RowsKeepKeyOrder(ids, stamps, rows, key);
    RowsOf(ids, rows)
  }

  /** The first page, when the limit covers the whole filtered set, holds
      every key of it. */
  lemma FirstPageIsComplete<K>(keys: set<K>, stamps: map<K, Timestamp>, limit: nat, k: K)
    requires keys <= stamps.Keys && |keys| <= limit && k in keys
    ensures k in PageKeys(keys, stamps, 1, limit)
  {
    var order := NewestFirst(keys, stamps);
    assert SkipTake(order, 0, limit) == order;
  }
}
