/** The Redis server: a flat map from strings with expiry, and the typed store it stands for. */
module Redis {
  import opened Wrappers
  import opened Keys
  import S = TimedStore
  import opened TimedStore

  /** The Redis server as the service sees it. */
  class RedisClient {
    var data: map<string, Entry>
    var now: int
    ghost var typed: Store

    ghost predicate Valid()
      reads this
    {
      S.Represents(data, typed)
    }

    constructor (now: int)
      ensures Valid() && typed == map[] && this.now == now
    {
      data, typed := map[], map[];
      this.now := now;
    }

    method Tick(d: nat)
      requires Valid()
      modifies this
      ensures Valid() && typed == old(typed) && now == old(now) + d
    {
      now := now + d;
    }

    method Get(key: string, ghost k: Key) returns (v: Option<Value>)
      requires Valid() && WellFormed(k) && key == Encode(k)
      ensures v == S.Get(typed, k, now)
    {
      S.CommandsRefine(data, typed, k, now, Counter(0), 0);
      if key in data && (data[key].deadline.Some? ==> now < data[key].deadline.value) {
        v := Some(data[key].value);
      } else {
        v := None;
      }
    }

    method GetInt(key: string, ghost k: Key) returns (n: int)
      requires Valid() && WellFormed(k) && key == Encode(k)
      ensures n == S.CountAt(typed, k, now)
    {
      var v := Get(key, k);
      match v {
        case Some(Counter(c)) => n := c;
        case _ => n := 0;
      }
    }

    method Set(key: string, ghost k: Key, v: Value, ttl: int)
      requires Valid() && WellFormed(k) && key == Encode(k)
      modifies this
      ensures Valid() && now == old(now) && typed == S.Set(old(typed), k, v, now, ttl)
      ensures data == S.Set(old(data), key, v, now, ttl)
    {
      S.CommandsRefine(data, typed, k, now, v, ttl);
      data := data[key := Entry(v, if ttl > 0 then Some(now + ttl) else None)];
      typed := S.Set(typed, k, v, now, ttl);
    }

    method Del(key: string, ghost k: Key)
      requires Valid() && WellFormed(k) && key == Encode(k)
      modifies this
      ensures Valid() && now == old(now) && typed == S.Del(old(typed), k)
      ensures data == S.Del(old(data), key)
    {
      S.CommandsRefine(data, typed, k, now, Counter(0), 0);
      data := data - {key};
      typed := S.Del(typed, k);
    }

    /** DEL with several keys is one command. */
    method DelAll(keys: set<string>, ghost ks: set<Key>)
      requires Valid() && (forall k | k in ks :: WellFormed(k)) && keys == set k | k in ks :: Encode(k)
      modifies this
      ensures Valid() && now == old(now) && typed == S.DelAll(old(typed), ks)
      ensures data == S.DelAll(old(data), keys)
    {
      S.DelAllRefines(data, typed, ks);
      data := data - keys;
      typed := S.DelAll(typed, ks);
    }

    method Incr(key: string, ghost k: Key)
      requires Valid() && WellFormed(k) && key == Encode(k)
      modifies this
      ensures Valid() && now == old(now) && typed == S.Incr(old(typed), k, now)
      ensures data == S.Incr(old(data), key, now)
    {
      S.CommandsRefine(data, typed, k, now, Counter(0), 0);
      if key !in data || (data[key].deadline.Some? && !(now < data[key].deadline.value)) {
        data := data[key := Entry(Counter(1), None)];
      } else if data[key].value.Counter? {
        data := data[key := Entry(Counter(data[key].value.n + 1), data[key].deadline)];
      }
      typed := S.Incr(typed, k, now);
    }

    method Expire(key: string, ghost k: Key, ttl: int)
      requires Valid() && WellFormed(k) && key == Encode(k)
      modifies this
      ensures Valid() && now == old(now) && typed == S.Expire(old(typed), k, now, ttl)
      ensures data == S.Expire(old(data), key, now, ttl)
    {
      S.CommandsRefine(data, typed, k, now, Counter(0), ttl);
      if key in data && (data[key].deadline.Some? ==> now < data[key].deadline.value) {
        data := data[key := data[key].(deadline := Some(now + ttl))];
      }
      typed := S.Expire(typed, k, now, ttl);
    }
  }
}
