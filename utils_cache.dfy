/** The expiring cache of `poucave/utils.py`: each key holds a value and the
    instant it expires; a read past that instant drops the key. The wall
    clock is a parameter `now` (whole seconds). */
module Utils {
  import opened Common

  datatype Stored<V> = Stored(expires: int, value: V)

  /** The content after `set(key, value, ttl)` at instant `now`. */
  function Store<V>(content: map<string, Stored<V>>, key: string, value: V, ttl: int, now: int): (r: map<string, Stored<V>>)
    ensures key in r && r[key] == Stored(now + ttl, value)
    ensures forall k :: k != key ==> (k in r <==> k in content) && (k in content ==> r[k] == content[k])
  {
    content[key := Stored(now + ttl, value)]
  }

  /** What `get(key)` at instant `now` answers and the content it leaves. */
  function Lookup<V>(content: map<string, Stored<V>>, key: string, now: int): (Option<V>, map<string, Stored<V>>) {
    if key !in content then (None, content)
    else if now > content[key].expires then (None, content - {key})
    else (Some(content[key].value), content)
  }

  /** `get` answers the stored value iff the key is present and not yet
      expired, the expiry instant itself included. */
  lemma LookupHit<V>(content: map<string, Stored<V>>, key: string, now: int)
    ensures Lookup(content, key, now).0.Some? <==> key in content && now <= content[key].expires
    ensures Lookup(content, key, now).0.Some? ==>
      Lookup(content, key, now).0.value == content[key].value && Lookup(content, key, now).1 == content
  {
  }

  /** An expired key is dropped; every other key keeps its entry. */
  lemma LookupEvicts<V>(content: map<string, Stored<V>>, key: string, now: int)
    requires key in content && now > content[key].expires
    ensures Lookup(content, key, now).0 == None
    ensures var c := Lookup(content, key, now).1;
      key !in c && forall k :: k != key ==> (k in c <==> k in content) && (k in c ==> c[k] == content[k])
  {
  }

  /** An unknown key answers nothing and changes nothing. */
  lemma LookupUnknown<V>(content: map<string, Stored<V>>, key: string, now: int)
    requires key !in content
    ensures Lookup(content, key, now) == (None, content)
  {
  }

  /** A value just set is read back until it expires (`now + ttl`), and
      dropped by the first read after that. */
  lemma StoreThenLookup<V>(content: map<string, Stored<V>>, key: string, value: V, ttl: int, now: int, later: int)
    ensures var r := Lookup(Store(content, key, value, ttl, now), key, later);
      && (later <= now + ttl ==> r.0 == Some(value))
      && (later > now + ttl ==> r.0 == None && key !in r.1)
  {
  }

  /** A cache operation with its clock reading. */
  datatype Op<V> = SetOp(key: string, value: V, ttl: int, now: int) | GetOp(key: string, now: int)

  /** The content after a sequence of operations. */
  function Apply<V>(content: map<string, Stored<V>>, ops: seq<Op<V>>): map<string, Stored<V>>
    decreases |ops|
  {
    if ops == [] then content
    else
      var c := match ops[0]
        case SetOp(k, v, ttl, now) => Store(content, k, v, ttl, now)
        case GetOp(k, now) => Lookup(content, k, now).1;
      Apply(c, ops[1..])
  }

  /** Operations that neither set `key` nor read it after `expires`. */
  predicate Preserves<V>(ops: seq<Op<V>>, key: string, expires: int) {
    forall i :: 0 <= i < |ops| ==> ops[i].key == key ==> ops[i].GetOp? && ops[i].now <= expires
  }

  /** Until it expires, a key holds what was last set for it, whatever else
      is set or read meanwhile. */
  lemma {:induction false} ApplyKeepsUnexpired<V>(content: map<string, Stored<V>>, ops: seq<Op<V>>, key: string)
    requires key in content
    requires Preserves(ops, key, content[key].expires)
    ensures key in Apply(content, ops) && Apply(content, ops)[key] == content[key]
    decreases |ops|
  {
    if ops != [] {
      var c := match ops[0]
        case SetOp(k, v, ttl, now) => Store(content, k, v, ttl, now)
        case GetOp(k, now) => Lookup(content, k, now).1;
      assert key in c && c[key] == content[key];
      assert Preserves(ops[1..], key, c[key].expires) by {
        forall i | 0 <= i < |ops[1..]| ensures ops[1..][i].key == key ==> ops[1..][i].GetOp? && ops[1..][i].now <= c[key].expires {
          assert ops[1..][i] == ops[i + 1];
        }
      }
      ApplyKeepsUnexpired(c, ops[1..], key);
    }
  }

  /** After `set(key, value, ttl)` at `now`, a read of `key` at any instant up
      to `now + ttl` answers `value`, as long as the operations in between
      neither set `key` nor read it after it expired. */
  lemma LastSetIsRead<V>(content: map<string, Stored<V>>, key: string, value: V, ttl: int, now: int,
                         ops: seq<Op<V>>, later: int)
    requires Preserves(ops, key, now + ttl)
    requires later <= now + ttl
    ensures Lookup(Apply(Store(content, key, value, ttl, now), ops), key, later).0 == Some(value)
  {
    ApplyKeepsUnexpired(Store(content, key, value, ttl, now), ops, key);
  }

  class Cache<V> {
    var content: map<string, Stored<V>>

    constructor()
      ensures content == map[]
    {
      content := map[];
    }

    /** `set`: stores the value with its expiry, replacing any previous one. */
    method Set(key: string, value: V, ttl: int, now: int)
      modifies this
      ensures content == Store(old(content), key, value, ttl, now)
    {
      content := content[key := Stored(now + ttl, value)];
    }

    /** `get`: the stored value while it is valid; an expired key is deleted. */
    method Get(key: string, now: int) returns (r: Option<V>)
      modifies this
      ensures (r, content) == Lookup(old(content), key, now)
    {
      if key !in content {
        return None;
      }
      var entry := content[key];
      if now > entry.expires {
        content := content - {key};
        return None;
      }
      return Some(entry.value);
    }
  }
}
