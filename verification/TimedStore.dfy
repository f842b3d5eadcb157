/**
 The Redis commands the service uses, on a store with a clock. The functions are generic in
 the key type: on typed keys they are the abstract store the handlers are specified over, on
 strings they are what the Redis client object does. Represents says when a string store stands for
 a typed one, and every command keeps it.
 */
module TimedStore {
  import opened Wrappers
  import opened Model
  import opened Keys

  /** A stored string, by what it denotes. */
  datatype Value = Counter(n: int) | OtpSession(data: SessionData) | Jti(jti: string) | CachedUser(profile: Profile)

  datatype Entry = Entry(value: Value, deadline: Option<int>)

  type Store = map<Key, Entry>

  /** Two stores agree on one key. */
  predicate SameEntry(s: Store, t: Store, k: Key) {
    (k in s <==> k in t) && (k in s ==> s[k] == t[k])
  }

  predicate Live<K(==)>(s: map<K, Entry>, k: K, now: int) {
    k in s && (s[k].deadline.Some? ==> now < s[k].deadline.value)
  }

  function Get<K(==)>(s: map<K, Entry>, k: K, now: int): Option<Value> {
    if Live(s, k, now) then Some(s[k].value) else None
  }

  /** Get(...).Int() with the error ignored, as the source does: no entry and no integer count as 0. */
  function CountAt<K(==)>(s: map<K, Entry>, k: K, now: int): int {
    match Get(s, k, now)
    case Some(Counter(n)) => n
    case _ => 0
  }

  /** SET; go-redis sends no expiry for a non-positive duration. */
  function Set<K(==)>(s: map<K, Entry>, k: K, v: Value, now: int, ttl: int): map<K, Entry> {
    s[k := Entry(v, if ttl > 0 then Some(now + ttl) else None)]
  }

  function Del<K(==)>(s: map<K, Entry>, k: K): map<K, Entry> { s - {k} }

  /** DEL of several keys. */
  function DelAll<K(==)>(s: map<K, Entry>, ks: set<K>): map<K, Entry> { s - ks }

  /** INCR creates a missing counter without expiry, keeps the expiry of a live one and fails on other values. */
  function Incr<K(==)>(s: map<K, Entry>, k: K, now: int): map<K, Entry> {
    match Get(s, k, now)
    case None => s[k := Entry(Counter(1), None)]
    case Some(Counter(n)) => s[k := Entry(Counter(n + 1), s[k].deadline)]
    case Some(_) => s
  }

  /** EXPIRE with a positive duration; nothing happens without a live entry. */
  function Expire<K(==)>(s: map<K, Entry>, k: K, now: int, ttl: int): map<K, Entry> {
    if Live(s, k, now) then s[k := s[k].(deadline := Some(now + ttl))] else s
  }

  /** The flat store holds exactly the typed store's entries under the keys the service can build. */
  ghost predicate Represents(flat: map<string, Entry>, typed: Store) {
    forall k: Key | WellFormed(k) ::
      (Encode(k) in flat <==> k in typed) && (k in typed ==> flat[Encode(k)] == typed[k])
  }

  lemma OtherKeysDiffer(k0: Key)
    requires WellFormed(k0)
    ensures forall k: Key | WellFormed(k) && k != k0 :: Encode(k) != Encode(k0)
  {
    forall k: Key | WellFormed(k) && Encode(k) == Encode(k0) ensures k == k0 {
      EncodeInjective(k, k0);
    }
  }

  /** A command on one encoded key is the same command on the one typed entry, and on nothing else. */
  lemma CommandsRefine(flat: map<string, Entry>, typed: Store, k: Key, now: int, v: Value, ttl: int)
    requires Represents(flat, typed) && WellFormed(k)
    ensures Get(flat, Encode(k), now) == Get(typed, k, now)
    ensures CountAt(flat, Encode(k), now) == CountAt(typed, k, now)
    ensures Represents(Set(flat, Encode(k), v, now, ttl), Set(typed, k, v, now, ttl))
    ensures Represents(Del(flat, Encode(k)), Del(typed, k))
    ensures Represents(Incr(flat, Encode(k), now), Incr(typed, k, now))
    ensures Represents(Expire(flat, Encode(k), now, ttl), Expire(typed, k, now, ttl))
  {
    RepresentsUpdate(flat, typed, k, Set(typed, k, v, now, ttl)[k]);
    RepresentsUpdate(flat, typed, k, Incr(typed, k, now)[k]);
    if k in typed { RepresentsUpdate(flat, typed, k, Expire(typed, k, now, ttl)[k]); }
    hide Represents, WellFormed, Encode;
  }

  /** Writing or deleting the same entry on both sides keeps the representation. */
  lemma RepresentsUpdate(flat: map<string, Entry>, typed: Store, k: Key, e: Entry)
    requires Represents(flat, typed) && WellFormed(k)
    ensures Represents(flat[Encode(k) := e], typed[k := e])
    ensures Represents(flat - {Encode(k)}, typed - {k})
    ensures (Encode(k) in flat <==> k in typed) && (k in typed ==> flat[Encode(k)] == typed[k])
  {
    OtherKeysDiffer(k);
    hide Encode, WellFormed;
  }

  lemma DelAllRefines(flat: map<string, Entry>, typed: Store, ks: set<Key>)
    requires Represents(flat, typed) && forall k | k in ks :: WellFormed(k)
    ensures Represents(DelAll(flat, set k | k in ks :: Encode(k)), DelAll(typed, ks))
  {
    var names := set k | k in ks :: Encode(k);
    forall k: Key | WellFormed(k) ensures Encode(k) in names <==> k in ks {
      if Encode(k) in names {
        var k' :| k' in ks && Encode(k') == Encode(k);
        EncodeInjective(k, k');
      }
    }
  }
}
