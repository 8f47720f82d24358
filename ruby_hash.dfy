/** Ruby values as the client sees them, and the insertion-ordered Hash it mutates. */
module RubyHash {
  import opened Outcomes

  /** A hash key. The client mixes symbol keys (`opts[:from]`) with string keys
      (`opts['nonce']`); Ruby keeps the two apart, and `to_s` maps both to `name`. */
  datatype Key = SymKey(name: string) | StrKey(name: string)

  /** A parsed JSON value or a caller-supplied argument. Objects are Hashie::Mash
      instances, whose keys are always strings. */
  datatype Value =
    | Null
    | Bool(b: bool)
    | Int(i: int)
    | Str(s: string)
    | Arr(items: seq<Value>)
    | Obj(fields: map<string, Value>)

  /** Ruby truthiness: only nil and false are falsy. */
  predicate Truthy(v: Value)
  {
    !(v.Null? || v == Bool(false))
  }

  /** A Ruby Hash as the list of its entries in insertion order. */
  type Pairs = seq<(Key, Value)>

  /** A Hash never holds the same key twice. */
  predicate UniqueKeys(ps: Pairs)
  {
    forall i, j :: 0 <= i < j < |ps| ==> ps[i].0 != ps[j].0
  }

  /** The entry stored under `k`, if any. */
  function Lookup(ps: Pairs, k: Key): (r: Option<Value>)
    ensures r.Some? <==> exists i :: 0 <= i < |ps| && ps[i].0 == k
  {
    if ps == [] then None
    else if ps[0].0 == k then Some(ps[0].1)
    else Lookup(ps[1..], k)
  }

  /** Hash#[]: the entry under `k`, or nil. */
  function Get(ps: Pairs, k: Key): Value
  {
    match Lookup(ps, k)
    case Some(v) => v
    case None => Null
  }

  /** Hash#[]=: an existing key keeps its position and takes the new value; a new key is
      appended at the end. */
  function Stored(ps: Pairs, k: Key, v: Value): (r: Pairs)
    ensures Lookup(r, k) == Some(v)
  {
    if ps == [] then [(k, v)]
    else if ps[0].0 == k then [(k, v)] + ps[1..]
    else [ps[0]] + Stored(ps[1..], k, v)
  }

  /** Storing under `k` leaves every other key's entry as it was. */
  lemma {:induction false} StoredKeepsOthers(ps: Pairs, k: Key, v: Value, j: Key)
    requires j != k
    ensures Lookup(Stored(ps, k, v), j) == Lookup(ps, j)
  {
    if ps != [] && ps[0].0 != k {
      StoredKeepsOthers(ps[1..], k, v, j);
      assert Stored(ps, k, v)[1..] == Stored(ps[1..], k, v);
    }
  }

  /** A key the hash lacks is appended as its last entry. */
  lemma {:induction false} StoredAppendsNewKey(ps: Pairs, k: Key, v: Value)
    requires Lookup(ps, k).None?
    ensures Stored(ps, k, v) == ps + [(k, v)]
  {
    if ps != [] {
      assert ps[0].0 != k && Lookup(ps[1..], k).None?;
      StoredAppendsNewKey(ps[1..], k, v);
      calc {
        Stored(ps, k, v);
        [ps[0]] + Stored(ps[1..], k, v);
        [ps[0]] + (ps[1..] + [(k, v)]);
        { assert ps == [ps[0]] + ps[1..]; }
        ps + [(k, v)];
      }
    }
  }

  /** A key the hash has keeps its position: the keys and their order do not change. */
  lemma {:induction false} StoredKeepsKeyOrder(ps: Pairs, k: Key, v: Value)
    requires Lookup(ps, k).Some?
    ensures |Stored(ps, k, v)| == |ps|
    ensures forall i :: 0 <= i < |ps| ==> Stored(ps, k, v)[i].0 == ps[i].0
  {
    if ps[0].0 != k {
      StoredKeepsKeyOrder(ps[1..], k, v);
      var r, rest := Stored(ps, k, v), Stored(ps[1..], k, v);
      assert r == [ps[0]] + rest;
      forall i | 1 <= i < |ps| ensures r[i].0 == ps[i].0 {
        assert r[i] == rest[i - 1];
        assert ps[1..][i - 1] == ps[i];
      }
    }
  }

  /** Storing never introduces a duplicate key. */
  lemma StoredUnique(ps: Pairs, k: Key, v: Value)
    requires UniqueKeys(ps)
    ensures UniqueKeys(Stored(ps, k, v))
  {
    if Lookup(ps, k).Some? {
      StoredKeepsKeyOrder(ps, k, v);
    } else {
      StoredAppendsNewKey(ps, k, v);
    }
  }

  /** A Ruby Hash object that callers share with the client, which updates it in place. */
  class Hash {
    var pairs: Pairs

    ghost predicate Valid()
      reads this
    {
      UniqueKeys(pairs)
    }

    constructor (pairs: Pairs)
      requires UniqueKeys(pairs)
      ensures Valid() && this.pairs == pairs
    {
      this.pairs := pairs;
    }

    /** `h[k] = v`. */
    method Store(k: Key, v: Value)
      requires Valid()
      modifies this
      ensures Valid()
      ensures pairs == Stored(old(pairs), k, v)
    {
      StoredUnique(pairs, k, v);
      pairs := Stored(pairs, k, v);
    }
  }
}
