// The address validation token of a Retry packet (section 8.1.2 of RFC 9000).
module RetryToken {
  import opened Api

  type Digest = s: seq<byte> | |s| == 32 witness seq(32, _ => 0)

  // SHA-256 is an arbitrary function to 32 bytes; feeding a hasher piecewise hashes the concatenation.
  type Hash = seq<byte> -> Digest

  datatype Address =
    | V4(octets4: seq<byte>)
    | V6(octets6: seq<byte>)
  {
    ghost predicate Valid() {
      match this
      case V4(o) => |o| == 4
      case V6(o) => |o| == 16
    }

    function Octets(): seq<byte> {
      match this
      case V4(o) => o
      case V6(o) => o
    }
  }

  type u64 = x: int | 0 <= x < TWO_TO_THE_64

  const NANOS_PER_SEC: nat := 1_000_000_000

  // The last `n` base-256 digits of x, most significant first.
  function BigEndian(x: nat, n: nat): (s: seq<byte>)
    ensures |s| == n
  {
    if n == 0 then [] else BigEndian(x / 256, n - 1) + [x % 256]
  }

  function FromBigEndian(s: seq<byte>): nat {
    if s == [] then 0 else FromBigEndian(s[..|s| - 1]) * 256 + s[|s| - 1]
  }

  function Power256(n: nat): nat {
    if n == 0 then 1 else 256 * Power256(n - 1)
  }

  lemma {:induction false} BigEndianInverts(x: nat, n: nat)
    requires x < Power256(n)
    ensures FromBigEndian(BigEndian(x, n)) == x
  {
    if n > 0 {
      BigEndianInverts(x / 256, n - 1);
      assert BigEndian(x, n)[..n - 1] == BigEndian(x / 256, n - 1);
    }
  }

  lemma {:induction false} FromBigEndianInverts(s: seq<byte>)
    ensures FromBigEndian(s) < Power256(|s|)
    ensures BigEndian(FromBigEndian(s), |s|) == s
  {
    if s != [] {
      var init, last := s[..|s| - 1], s[|s| - 1];
      FromBigEndianInverts(init);
      assert (FromBigEndian(init) * 256 + last) / 256 == FromBigEndian(init);
      assert (FromBigEndian(init) * 256 + last) % 256 == last;
      assert s == init + [last];
    }
  }

  // The first octet is the most significant one.
  lemma {:induction false} FirstOctetWeighsMost(s: seq<byte>)
    requires s != []
    ensures FromBigEndian(s) == s[0] * Power256(|s| - 1) + FromBigEndian(s[1..])
  {
    if |s| > 1 {
      var init, last := s[..|s| - 1], s[|s| - 1];
      FirstOctetWeighsMost(init);
      assert init[1..] == s[1..][..|s| - 2] && s[1..][|s| - 2] == last;
      var p := Power256(|s| - 2);
      assert (s[0] * p) * 256 == s[0] * (256 * p);
    }
  }

  lemma Power256Of8()
    ensures Power256(8) == TWO_TO_THE_64
  {
  }

  datatype Validator = Validator(seed: seq<byte>, expiration: nat)

  // FromTheFuture stands for the panic of `now - timestamp` when the token is from the future.
  datatype Verdict = Accepted(odcid: seq<byte>) | Rejected | FromTheFuture

  // The token minted at `secs` since the epoch.
  function Minted(v: Validator, hash: Hash, dcid: seq<byte>, newScid: seq<byte>, addr: Address, secs: u64): seq<byte> {
    var body := addr.Octets() + BigEndian(secs, 8) + dcid;
    body + hash(v.seed + body + newScid)
  }

  method MintRetryToken(v: Validator, hash: Hash, dcid: seq<byte>, newScid: seq<byte>, addr: Address, secs: u64)
    returns (token: seq<byte>)
    ensures token == Minted(v, hash, dcid, newScid, addr, secs)
  {
    token := [];
    match addr {
      case V4(octets) => token := token + octets;
      case V6(octets) => token := token + octets;
    }
    token := token + BigEndian(secs, 8);
    token := token + dcid;
    assert token == addr.Octets() + BigEndian(secs, 8) + dcid;

    var hasher := [];
    hasher := hasher + v.seed;
    hasher := hasher + token;
    hasher := hasher + newScid;
    assert hasher == v.seed + token + newScid;

    token := token + hash(hasher);
  }

  // `nowNanos` is the time since the epoch, in nanoseconds.
  method ValidateAddress(v: Validator, hash: Hash, dcid: seq<byte>, addr: Address, nowNanos: nat, token: seq<byte>)
    returns (r: Verdict)
    requires addr.Valid()
    ensures r == Validate(v, hash, dcid, addr, nowNanos, token)
  {
    var octets := addr.Octets();
    if |octets| + 40 > |token| {
      return Rejected;
    }
    if octets != token[..|octets|] {
      return Rejected;
    }
    var timestamp := FromBigEndian(token[|octets|..|octets| + 8]) * NANOS_PER_SEC;
    if nowNanos < timestamp {
      return FromTheFuture;
    }
    if nowNanos - timestamp > v.expiration {
      return Rejected;
    }
    var sha256 := token[|token| - 32..];
    var hasher := [];
    hasher := hasher + v.seed;
    hasher := hasher + token[..|token| - 32];
    hasher := hasher + dcid;
    assert hasher == v.seed + token[..|token| - 32] + dcid;
    if sha256 != hash(hasher) {
      return Rejected;
    }
    r := Accepted(token[|octets| + 8..|token| - 32]);
  }

  function Validate(v: Validator, hash: Hash, dcid: seq<byte>, addr: Address, nowNanos: nat, token: seq<byte>): Verdict
    requires addr.Valid()
  {
    var n := |addr.Octets()|;
    if n + 40 > |token| || addr.Octets() != token[..n] then Rejected else
    var timestamp := FromBigEndian(token[n..n + 8]) * NANOS_PER_SEC;
    if nowNanos < timestamp then FromTheFuture
    else if nowNanos - timestamp > v.expiration then Rejected
    else if token[|token| - 32..] != hash(v.seed + token[..|token| - 32] + dcid) then Rejected
    else Accepted(token[n + 8..|token| - 32])
  }

  lemma TokenParts(v: Validator, hash: Hash, dcid: seq<byte>, newScid: seq<byte>, addr: Address, secs: u64)
    requires addr.Valid()
    ensures var token := Minted(v, hash, dcid, newScid, addr, secs);
      var n := |addr.Octets()|;
      && |token| == n + 8 + |dcid| + 32
      && token[..n] == addr.Octets()
      && token[n..n + 8] == BigEndian(secs, 8)
      && token[n + 8..|token| - 32] == dcid
      && token[|token| - 32..] == hash(v.seed + token[..|token| - 32] + newScid)
      && FromBigEndian(token[n..n + 8]) == secs
  {
    var token := Minted(v, hash, dcid, newScid, addr, secs);
    var body := addr.Octets() + BigEndian(secs, 8) + dcid;
    assert token[..|token| - 32] == body;
    Power256Of8();
    BigEndianInverts(secs, 8);
  }

  // The subtraction of the timestamp panics exactly for a token of sufficient length that begins
  // with the address and bears a timestamp later than now; the digest is not looked at.
  lemma FutureExactly(v: Validator, hash: Hash, dcid: seq<byte>, addr: Address, nowNanos: nat, token: seq<byte>)
    requires addr.Valid()
    ensures var n := |addr.Octets()|;
      Validate(v, hash, dcid, addr, nowNanos, token) == FromTheFuture <==>
        && n + 40 <= |token| && token[..n] == addr.Octets()
        && nowNanos < FromBigEndian(token[n..n + 8]) * NANOS_PER_SEC
  {
  }

  // There is such a token for every validator, every address and every later second,
  // whatever follows the timestamp.
  lemma FutureTokenPanics(v: Validator, hash: Hash, dcid: seq<byte>, addr: Address, nowNanos: nat,
                          secs: u64, rest: seq<byte>)
    requires addr.Valid() && nowNanos < secs * NANOS_PER_SEC && |rest| >= 32
    ensures Validate(v, hash, dcid, addr, nowNanos, addr.Octets() + BigEndian(secs, 8) + rest) == FromTheFuture
  {
    var token, n := addr.Octets() + BigEndian(secs, 8) + rest, |addr.Octets()|;
    Power256Of8();
    BigEndianInverts(secs, 8);
    assert token[..n] == addr.Octets() && token[n..n + 8] == BigEndian(secs, 8);
  }

  // Round trip, for every address, id of any length, seed, hash and mint time: the token
  // validates to the original id exactly until it expires, and is rejected after.
  lemma RoundTrip(v: Validator, hash: Hash, odcid: seq<byte>, newScid: seq<byte>, addr: Address, secs: u64, nowNanos: nat)
    requires addr.Valid() && secs * 1_000_000_000 <= nowNanos
    ensures Validate(v, hash, newScid, addr, nowNanos, Minted(v, hash, odcid, newScid, addr, secs))
         == if nowNanos - secs * 1_000_000_000 <= v.expiration then Accepted(odcid) else Rejected
  {
    TokenParts(v, hash, odcid, newScid, addr, secs);
  }

  lemma AcceptedIsMinted(v: Validator, hash: Hash, dcid: seq<byte>, addr: Address, nowNanos: nat,
                         token: seq<byte>, odcid: seq<byte>) returns (secs: u64)
    requires addr.Valid() && Validate(v, hash, dcid, addr, nowNanos, token) == Accepted(odcid)
    ensures token == Minted(v, hash, odcid, dcid, addr, secs)
    ensures secs * NANOS_PER_SEC <= nowNanos <= secs * NANOS_PER_SEC + v.expiration
  {
    var n := |addr.Octets()|;
    FromBigEndianInverts(token[n..n + 8]);
    Power256Of8();
    secs := FromBigEndian(token[n..n + 8]);
    hide FromBigEndian;
    var body := token[..|token| - 32];
    assert body[..n] == token[..n] && body[n..n + 8] == token[n..n + 8];
    assert body[n + 8..] == token[n + 8..|token| - 32];
    assert body == body[..n] + body[n..n + 8] + body[n + 8..];
    assert token == body + token[|token| - 32..];
  }

  // The validator accepts exactly the unexpired tokens it mints itself for that address and
  // id: anything accepted is address, timestamp, id, digest, in this order.
  lemma AcceptsExactlyMinted(v: Validator, hash: Hash, dcid: seq<byte>, addr: Address, nowNanos: nat,
                             token: seq<byte>, odcid: seq<byte>)
    requires addr.Valid()
    ensures Validate(v, hash, dcid, addr, nowNanos, token) == Accepted(odcid) <==>
      exists secs: u64 ::
        && token == Minted(v, hash, odcid, dcid, addr, secs)
        && secs * NANOS_PER_SEC <= nowNanos <= secs * NANOS_PER_SEC + v.expiration
  {
    if Validate(v, hash, dcid, addr, nowNanos, token) == Accepted(odcid) {
      var secs := AcceptedIsMinted(v, hash, dcid, addr, nowNanos, token, odcid);
    }
    forall secs: u64 | && token == Minted(v, hash, odcid, dcid, addr, secs)
                       && secs * NANOS_PER_SEC <= nowNanos <= secs * NANOS_PER_SEC + v.expiration
      ensures Validate(v, hash, dcid, addr, nowNanos, token) == Accepted(odcid)
    {
      RoundTrip(v, hash, odcid, dcid, addr, secs, nowNanos);
    }
  }

  // A token is bound to the address it was minted for: from another address of the same family
  // it is rejected, at any time and with any id.
  lemma TokenIsBoundToAddress(v: Validator, hash: Hash, odcid: seq<byte>, newScid: seq<byte>, addr: Address, other: Address,
                              secs: u64, dcid: seq<byte>, nowNanos: nat)
    requires addr.Valid() && other.Valid() && addr.V4? == other.V4? && addr != other
    ensures Validate(v, hash, dcid, other, nowNanos, Minted(v, hash, odcid, newScid, addr, secs)) == Rejected
  {
    TokenParts(v, hash, odcid, newScid, addr, secs);
  }
}
