/**
 The Redis key builders of user-service. A typed Key says which abstract entry a key string
 stands for; Encode is the string the source builds for it.
 */
module Keys {
  datatype Key =
    | Rate(email: string)
    | Attempts(email: string)
    | Session(sid: string)
    | Refresh(deviceId: string, userId: string)
    | User(id: string)

  predicate IsCounterKey(k: Key) { k.Rate? || k.Attempts? }

  function GetOTPRateKey(email: string): string { "otp:rate:" + email }

  function GetOTPAttemptsKey(email: string): string { "otp:attempts:" + email }

  function GetOTPSessionKey(sessionId: string): string { "otp:session:" + sessionId }

  /** The source names the parameters userId, deviceId; every call passes the device first. */
  function GetRefreshTokenKey(first: string, second: string): string { "refresh:" + first + ":" + second }

  function GetUserKey(userId: string): string { "user:" + userId }

  function Encode(k: Key): string {
    match k
    case Rate(email) => GetOTPRateKey(email)
    case Attempts(email) => GetOTPAttemptsKey(email)
    case Session(sid) => GetOTPSessionKey(sid)
    case Refresh(deviceId, userId) => GetRefreshTokenKey(deviceId, userId)
    case User(id) => GetUserKey(id)
  }

  predicate ColonFree(s: string) { ':' !in s }

  /** The keys the service builds: the first part of a refresh key has no colon. */
  predicate WellFormed(k: Key) { k.Refresh? ==> ColonFree(k.deviceId) }

  lemma SamePrefix(p: string, s: string, t: string)
    requires p + s == p + t
    ensures s == t
  {
    assert s == (p + s)[|p|..] && t == (p + t)[|p|..];
  }

  /** Two different first parts can produce one refresh key exactly when one continues the other after a colon. */
  lemma RefreshKeysCollideExactly(a: string, b: string)
    requires a != b
    ensures (exists x, y :: GetRefreshTokenKey(a, x) == GetRefreshTokenKey(b, y)) <==> a + ":" <= b || b + ":" <= a
  {
    if a + ":" <= b {
      assert GetRefreshTokenKey(a, b[|a| + 1..] + ":") == GetRefreshTokenKey(b, "");
    }
    if b + ":" <= a {
      assert GetRefreshTokenKey(a, "") == GetRefreshTokenKey(b, a[|b| + 1..] + ":");
    }
    if exists x, y :: GetRefreshTokenKey(a, x) == GetRefreshTokenKey(b, y) {
      var x, y :| GetRefreshTokenKey(a, x) == GetRefreshTokenKey(b, y);
      RefreshKeysAgree(a, x, b, y);
    }
  }

  lemma RefreshKeysAgree(a: string, x: string, b: string, y: string)
    requires GetRefreshTokenKey(a, x) == GetRefreshTokenKey(b, y)
    ensures (a == b && x == y) || a + ":" <= b || b + ":" <= a
  {
    var s, t := a + ":" + x, b + ":" + y;
    assert GetRefreshTokenKey(a, x) == "refresh:" + s && GetRefreshTokenKey(b, y) == "refresh:" + t;
    SamePrefix("refresh:", s, t);
    if |a| == |b| {
      assert a == s[..|a|] == b && x == s[|a| + 1..] == y;
    } else if |a| < |b| {
      assert b == t[..|b|] && a + ":" == s[..|a| + 1] == b[..|a| + 1];
    } else {
      assert a == s[..|a|] && b + ":" == t[..|b| + 1] == a[..|b| + 1];
    }
  }

  lemma ColonFreeExtendsNothing(a: string, b: string)
    requires ColonFree(b)
    ensures !(a + ":" <= b)
  {
    assert (a + ":")[|a|] == ':';
    if |a| < |b| {
      assert b[|a|] in b;
    }
  }

  lemma KindsDiffer(k1: Key, k2: Key)
    requires Encode(k1) == Encode(k2)
    ensures k1.Rate? == k2.Rate? && k1.Attempts? == k2.Attempts? && k1.Session? == k2.Session? &&
            k1.Refresh? == k2.Refresh? && k1.User? == k2.User?
  {
    var s := Encode(k1);
    assert k1.Refresh? ==> s[0] == 'r';
    assert k1.User? ==> s[0] == 'u';
    assert k1.Rate? ==> s[0] == 'o' && s[4] == 'r';
    assert k1.Attempts? ==> s[0] == 'o' && s[4] == 'a';
    assert k1.Session? ==> s[0] == 'o' && s[4] == 's';
    var t := Encode(k2);
    assert k2.Refresh? ==> t[0] == 'r';
    assert k2.User? ==> t[0] == 'u';
    assert k2.Rate? ==> t[0] == 'o' && t[4] == 'r';
    assert k2.Attempts? ==> t[0] == 'o' && t[4] == 'a';
    assert k2.Session? ==> t[0] == 'o' && t[4] == 's';
  }

  /** Distinct abstract entries never share a Redis key. */
  lemma EncodeInjective(k1: Key, k2: Key)
    requires WellFormed(k1) && WellFormed(k2) && Encode(k1) == Encode(k2)
    ensures k1 == k2
  {
    KindsDiffer(k1, k2);
    match k1
    case Rate(email) => SamePrefix("otp:rate:", email, k2.email);
    case Attempts(email) => SamePrefix("otp:attempts:", email, k2.email);
    case Session(sid) => SamePrefix("otp:session:", sid, k2.sid);
    case User(id) => SamePrefix("user:", id, k2.id);
    case Refresh(d, u) =>
      ColonFreeExtendsNothing(d, k2.deviceId);
      ColonFreeExtendsNothing(k2.deviceId, d);
      RefreshKeysAgree(d, u, k2.deviceId, k2.userId);
  }

  // ---- the device fingerprint ----

  const DIGITS := "0123456789abcdef"

  function HexByte(b: bv8): string { [DIGITS[(b >> 4) as int], DIGITS[(b & 0xF) as int]] }

  function HexEncode(bytes: seq<bv8>): (s: string)
    ensures |s| == 2 * |bytes|
    ensures forall c | c in s :: c in DIGITS
  {
    if bytes == [] then "" else HexByte(bytes[0]) + HexEncode(bytes[1..])
  }

  /** GetDeviceFingerprint, for any hash in the place of SHA-256. */
  function GetDeviceFingerprint(sha256: string -> seq<bv8>, userAgent: string, ip: string, accept: string): string {
    HexEncode(sha256(userAgent + "|" + ip + "|" + accept))
  }

  /** Whatever the request headers, the refresh keys that the handlers build are well formed. */
  lemma FingerprintKeysAreWellFormed(sha256: string -> seq<bv8>, userAgent: string, ip: string, accept: string, userId: string)
    ensures WellFormed(Refresh(GetDeviceFingerprint(sha256, userAgent, ip, accept), userId))
  {
    assert ':' !in DIGITS;
  }
}
