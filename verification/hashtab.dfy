/** Hash tables with chained buckets: whatever the hash function, they are maps. */
module HashTab {
  import opened Options

  const HASH_SIZE: nat := 137

  /** A bucket: entries are linked in front and never change afterwards. */
  datatype Chain<K, V> = Nil | Entry(key: K, elem: V, next: Chain<K, V>)

  /** The entry that a search through the bucket finds first. */
  function Lookup<K(==), V>(c: Chain<K, V>, key: K): Option<V> {
    if c.Nil? then None else if c.key == key then Some(c.elem) else Lookup(c.next, key)
  }

  class Table<K(!new, ==), V> {
    const hash: K -> nat
    const buckets: array<Chain<K, V>>

    constructor (h: K -> nat)
      requires forall k :: h(k) < HASH_SIZE
      ensures Valid() && hash == h && fresh(buckets)
      ensures forall k :: Get(k) == None
    {
      hash := h;
      buckets := new Chain<K, V>[HASH_SIZE](_ => Nil);
    }

    ghost predicate Valid() {
      buckets.Length == HASH_SIZE && forall k :: hash(k) < HASH_SIZE
    }

    /** What the table holds under `key`: the last element added under it. */
    function Get(key: K): (v: Option<V>)
      requires Valid()
      reads buckets
    {
      Lookup(buckets[hash(key)], key)
    }

    /** Link a new entry in front of its bucket. */
    method AddElem(key: K, elem: V)
      requires Valid()
      modifies buckets
      ensures Get(key) == Some(elem)
      ensures forall k :: k != key ==> Get(k) == old(Get(k))
    {
      var i := hash(key);
      buckets[i] := Entry(key, elem, buckets[i]);
    }

    /** Search the bucket of `key`. */
    method FindElem(key: K) returns (v: Option<V>)
      requires Valid()
      ensures v == Get(key)
    {
      var s := buckets[hash(key)];
      while s.Entry? && s.key != key
        invariant Lookup(s, key) == Get(key)
        decreases s
      {
        s := s.next;
      }
      return if s.Entry? then Some(s.elem) else None;
    }
  }
}
