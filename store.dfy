/**
 * The parts of Redis the services rely on, as plain values: string keys, lists,
 * sorted sets, hashes of integer counters and a log of pub/sub publications.
 *
 * A sorted set is kept as a sequence of entries in insertion order with no
 * member twice. Redis answers range queries ordered by score; every
 * consumer here only counts and sums the answer, which does not depend on order.
 */
module RedisStore {
  import opened CircuitBreakerTypes

  datatype Entry = Entry(member: string, score: int)

  /** The members of a sorted set. */
  function Members(z: seq<Entry>): set<string> {
    set i | 0 <= i < |z| :: z[i].member
  }

  ghost predicate NoDuplicateMembers(z: seq<Entry>) {
    forall i, j :: 0 <= i < j < |z| ==> z[i].member != z[j].member
  }

  /** ZADD key NX score member: only a member that is absent is inserted. */
  function AddIfAbsent(z: seq<Entry>, member: string, score: int): (r: seq<Entry>)
    ensures Members(r) == Members(z) + {member}
    ensures forall e :: e in z ==> e in r
    ensures member !in Members(z) ==> Entry(member, score) in r
    ensures |r| == |z| + (if member in Members(z) then 0 else 1)
    ensures NoDuplicateMembers(z) ==> NoDuplicateMembers(r)
  {
    if member in Members(z) then z
    else
      var r := z + [Entry(member, score)];
      assert forall i :: 0 <= i < |z| ==> r[i] == z[i];
      assert r[|z|] == Entry(member, score);
      assert Members(r) == Members(z) + {member} by {
        forall m | m in Members(r) ensures m in Members(z) + {member} {
          var i :| 0 <= i < |r| && r[i].member == m;
          if i < |z| { assert z[i].member == m; }
        }
      }
      r
  }

  /** ZADD key score member: inserts an absent member, or moves an existing one to `score`. */
  function AddOrUpdate(z: seq<Entry>, member: string, score: int): (r: seq<Entry>)
    ensures Members(r) == Members(z) + {member}
    ensures Entry(member, score) in r
    ensures forall e :: e in z && e.member != member ==> e in r
    ensures |r| == |z| + (if member in Members(z) then 0 else 1)
    ensures NoDuplicateMembers(z) ==> NoDuplicateMembers(r)
  {
    if member in Members(z) then
      var r := seq(|z|, i requires 0 <= i < |z| => if z[i].member == member then Entry(member, score) else z[i]);
      assert forall i :: 0 <= i < |z| ==> r[i].member == z[i].member;
      assert Members(r) == Members(z);
      var k :| 0 <= k < |z| && z[k].member == member;
      assert r[k] == Entry(member, score);
      r
    else
      AddIfAbsent(z, member, score)
  }

  /** Whether an entry's score lies in [min, max]; an absent max stands for +inf. */
  predicate InRange(e: Entry, min: int, max: Option<int>) {
    min <= e.score && (max.None? || e.score <= max.value)
  }

  /** ZRANGEBYSCORE key min max, as entries. */
  function RangeByScore(z: seq<Entry>, min: int, max: Option<int>): (r: seq<Entry>)
    ensures forall e :: e in r <==> e in z && InRange(e, min, max)
    ensures |r| <= |z|
  {
    if z == [] then []
    else if InRange(z[0], min, max) then [z[0]] + RangeByScore(z[1..], min, max)
    else RangeByScore(z[1..], min, max)
  }

  /** A range that every score satisfies returns the whole set. */
  lemma {:induction false} RangeCoversAll(z: seq<Entry>, min: int)
    requires forall i :: 0 <= i < |z| ==> min <= z[i].score
    ensures RangeByScore(z, min, None) == z
  {
    if z != [] {
      RangeCoversAll(z[1..], min);
    }
  }

  /** The range of a set with one more entry: the old range, plus that entry when its score is in range. */
  lemma {:induction false} RangeOfAppend(z: seq<Entry>, e: Entry, min: int, max: Option<int>)
    ensures RangeByScore(z + [e], min, max) ==
            RangeByScore(z, min, max) + (if InRange(e, min, max) then [e] else [])
    decreases |z|
  {
    if z == [] {
      assert [e][1..] == [];
    } else {
      assert (z + [e])[0] == z[0];
      assert (z + [e])[1..] == z[1..] + [e];
      RangeOfAppend(z[1..], e, min, max);
    }
  }

  /** HGET on a hash of counters; a missing field reads as 0. */
  function HGet(h: map<string, int>, field: string): int {
    if field in h then h[field] else 0
  }

  /** HINCRBY / HINCRBYFLOAT: a missing field starts from 0. */
  function Increment(h: map<string, int>, field: string, delta: int): (r: map<string, int>)
    ensures HGet(r, field) == HGet(h, field) + delta
    ensures forall g :: g != field ==> HGet(r, g) == HGet(h, g)
    ensures r.Keys == h.Keys + {field}
  {
    h[field := HGet(h, field) + delta]
  }

  /** The sorted set at `key` of a keyspace; a missing key is the empty set. */
  function SortedSetIn(zsets: map<string, seq<Entry>>, key: string): seq<Entry> {
    if key in zsets then zsets[key] else []
  }

  /** One Redis database, shared by every service that holds it. */
  class Redis {
    var strings: map<string, string>
    var lists: map<string, seq<string>>
    var zsets: map<string, seq<Entry>>
    var hashes: map<string, map<string, int>>
    /** Every PUBLISH so far, as (channel, message), oldest first. */
    var published: seq<(string, string)>

    constructor ()
      ensures strings == map[] && lists == map[] && zsets == map[] && hashes == map[]
      ensures published == []
    {
      strings, lists, zsets, hashes := map[], map[], map[], map[];
      published := [];
    }

    /** GET: absent keys give None. */
    function Get(key: string): Option<string>
      reads this
    {
      if key in strings then Some(strings[key]) else None
    }

    /** The list at `key`; a missing key is the empty list. */
    function List(key: string): seq<string>
      reads this
    {
      if key in lists then lists[key] else []
    }

    /** The sorted set at `key`; a missing key is the empty set. */
    function SortedSet(key: string): seq<Entry>
      reads this
    {
      SortedSetIn(zsets, key)
    }

    /** The hash at `key`; a missing key is the empty hash. */
    function Hash(key: string): map<string, int>
      reads this
    {
      if key in hashes then hashes[key] else map[]
    }

    method Set(key: string, value: string)
      modifies this`strings
      ensures strings == old(strings)[key := value]
    {
      strings := strings[key := value];
    }

    method Publish(channel: string, message: string)
      modifies this`published
      ensures published == old(published) + [(channel, message)]
    {
      published := published + [(channel, message)];
    }

    /** RPUSH: append at the tail. */
    method RPush(key: string, value: string)
      modifies this`lists
      ensures lists == old(lists)[key := old(List(key)) + [value]]
    {
      lists := lists[key := List(key) + [value]];
    }

    /** LPUSH: insert at the head. */
    method LPush(key: string, value: string)
      modifies this`lists
      ensures lists == old(lists)[key := [value] + old(List(key))]
    {
      lists := lists[key := [value] + List(key)];
    }

    /** LPOP (BLPOP without the blocking wait): take the head, if any. */
    method LPop(key: string) returns (v: Option<string>)
      modifies this`lists
      ensures old(List(key)) == [] ==> v == None && lists == old(lists)
      ensures old(List(key)) != [] ==>
                v == Some(old(List(key))[0]) && lists == old(lists)[key := old(List(key))[1..]]
    {
      var l := List(key);
      if l == [] {
        v := None;
      } else {
        v := Some(l[0]);
        lists := lists[key := l[1..]];
      }
    }

    method ZAddNX(key: string, score: int, member: string)
      modifies this`zsets
      ensures zsets == old(zsets)[key := AddIfAbsent(old(SortedSet(key)), member, score)]
    {
      zsets := zsets[key := AddIfAbsent(SortedSet(key), member, score)];
    }

    method ZAdd(key: string, score: int, member: string)
      modifies this`zsets
      ensures zsets == old(zsets)[key := AddOrUpdate(old(SortedSet(key)), member, score)]
    {
      zsets := zsets[key := AddOrUpdate(SortedSet(key), member, score)];
    }

    method HIncrBy(key: string, field: string, delta: int)
      modifies this`hashes
      ensures hashes == old(hashes)[key := Increment(old(Hash(key)), field, delta)]
    {
      hashes := hashes[key := Increment(Hash(key), field, delta)];
    }
  }
}
