/**
  Values of the Wardriver sync group and the checks the proof verifier makes on them
  (api/_lib/wardriver-sync-auth.js).  Hashes are ideal, hence injective: a digest is its
  preimage.  Strings are sequences of UTF-16 code units, as in the source.
 */
module SyncAuth {
  import opened Wrappers

  newtype CodeUnit = x: int | 0 <= x < 0x10000
  type Text = seq<CodeUnit>

  datatype Result<+T> = Ok(value: T) | Err(error: SyncError)

  datatype SyncError =
    | ChallengeExpired | ChallengeUsed | RateLimited | NotMember | OwnerRequired
    | InvitationUsed | InvitationInvalid | GroupFull | OwnerProtected
    | DeviceNotFound | CutoffConflict | SyncUnavailable

  datatype Digest = Sha256(preimage: Text)

  const MAX_SAFE_INTEGER := 9_007_199_254_740_991
  const MAX_CLOCK := 8_640_000_000_000 // the last second a JavaScript Date can show
  const CHALLENGE_SECONDS := 120

  datatype Cutoff = Cutoff(sequence: int, commitHash: Option<Digest>)
  datatype Status = Active | Revoked

  datatype Action =
    | Enroll(invitation: Text, displayName: Text)
    | Grants
    | Invite(expiresInSeconds: int)
    | Rename(name: Text)
    | Revoke(target: Digest, cutoff: Cutoff)

  /** What verifyProof hands to the store. */
  datatype Request = Request(action: Action, deviceId: Digest, publicKeySpki: Text, nonce: nat, expiresAt: int)

  datatype Config = Config(groupId: Text, ownerKey: Text, ownerName: Text, maxDevices: int) {
    function OwnerId(): Digest { Sha256(ownerKey) }
  }

  predicate ValidConfig(c: Config) {
    1 <= c.maxDevices <= 5 && DisplayName(c.ownerName) == Some(c.ownerName)
  }

  predicate ValidCutoff(c: Cutoff) {
    0 <= c.sequence <= MAX_SAFE_INTEGER && (c.sequence == 0 <==> c.commitHash.None?)
  }

  predicate ValidFields(a: Action) {
    match a
    case Enroll(_, name) => DisplayName(name) == Some(name)
    case Grants => true
    case Invite(seconds) => 300 <= seconds <= 604800
    case Rename(name) => DisplayName(name) == Some(name)
    case Revoke(_, cutoff) => ValidCutoff(cutoff)
  }

  predicate Verified(r: Request) {
    && r.deviceId == Sha256(r.publicKeySpki)
    && -MAX_SAFE_INTEGER <= r.expiresAt <= MAX_SAFE_INTEGER
    && ValidFields(r.action)
  }

  // ----- Display names -----

  predicate IsSpace(c: CodeUnit) {
    || 0x09 <= c <= 0x0d || c == 0x20 || c == 0xa0 || c == 0x1680 || 0x2000 <= c <= 0x200a
    || c == 0x2028 || c == 0x2029 || c == 0x202f || c == 0x205f || c == 0x3000 || c == 0xfeff
  }

  predicate IsForbidden(c: CodeUnit) {
    c <= 0x1f || 0x7f <= c <= 0x9f || 0x202a <= c <= 0x202e || 0x2066 <= c <= 0x2069
  }

  function TrimStart(s: Text): Text {
    if s != [] && IsSpace(s[0]) then TrimStart(s[1..]) else s
  }

  function TrimEnd(s: Text): Text {
    if s != [] && IsSpace(s[|s| - 1]) then TrimEnd(s[..|s| - 1]) else s
  }

  function Trim(s: Text): Text { TrimEnd(TrimStart(s)) }

  function DisplayName(value: Text): Option<Text> {
    if |value| > 64 || Trim(value) == [] || exists i :: 0 <= i < |value| && IsForbidden(value[i])
    then None
    else Some(Trim(value))
  }

  lemma {:induction false} TrimStartIsSuffix(s: Text) returns (k: nat)
    ensures k <= |s| && TrimStart(s) == s[k..]
    ensures TrimStart(s) != [] ==> !IsSpace(TrimStart(s)[0])
  {
    if s != [] && IsSpace(s[0]) {
      var j := TrimStartIsSuffix(s[1..]);
      k := j + 1;
    } else {
      k := 0;
    }
  }

  lemma {:induction false} TrimEndIsPrefix(s: Text) returns (k: nat)
    ensures k <= |s| && TrimEnd(s) == s[..k]
    ensures k > 0 ==> !IsSpace(s[k - 1])
  {
    if s != [] && IsSpace(s[|s| - 1]) {
      k := TrimEndIsPrefix(s[..|s| - 1]);
      assert s[..|s| - 1][..k] == s[..k];
    } else {
      k := |s|;
      assert s[..k] == s;
    }
  }

  /** A name the service accepted is accepted again, unchanged: stored names stay valid. */
  lemma DisplayNameIdempotent(value: Text)
    requires DisplayName(value).Some?
    ensures var n := DisplayName(value).value; DisplayName(n) == Some(n)
  {
    var a := TrimStartIsSuffix(value);
    var s := TrimStart(value);
    var b := TrimEndIsPrefix(s);
    var n := TrimEnd(s);
    assert n == s[..b];
    assert b > 0;
    assert n[0] == s[0] && n[|n| - 1] == s[b - 1];
    assert TrimStart(n) == n;
    forall i | 0 <= i < |n| ensures !IsForbidden(n[i]) {
      assert n[i] == value[a + i];
    }
  }

  predicate Spaces(s: Text) { forall c :: c in s ==> IsSpace(c) }

  lemma {:induction false} TrimStartDrops(a: Text, s: Text)
    requires Spaces(a) && (s != [] ==> !IsSpace(s[0]))
    ensures TrimStart(a + s) == s
  {
    if a == [] {
      assert a + s == s;
    } else {
      assert a == [a[0]] + a[1..] && (a + s)[1..] == a[1..] + s;
      TrimStartDrops(a[1..], s);
    }
  }

  lemma {:induction false} TrimEndDrops(s: Text, z: Text)
    requires Spaces(z) && (s != [] ==> !IsSpace(s[|s| - 1]))
    ensures TrimEnd(s + z) == s
  {
    if z == [] {
      assert s + z == s;
    } else {
      var init := z[..|z| - 1];
      assert z == init + [z[|z| - 1]] && (s + z)[..|s + z| - 1] == s + init;
      TrimEndDrops(s, init);
    }
  }

  /** The text between the spaces around it. */
  ghost predicate Inner(value: Text, n: Text, a: Text, z: Text) {
    value == a + n + z && Spaces(a) && Spaces(z) && n != [] && !IsSpace(n[0]) && !IsSpace(n[|n| - 1])
  }

  lemma InnerIsTrimmed(value: Text, n: Text, a: Text, z: Text)
    requires Inner(value, n, a, z)
    ensures Trim(value) == n
  {
    assert value == a + (n + z) && (n + z)[0] == n[0];
    TrimStartDrops(a, n + z);
    TrimEndDrops(n, z);
  }

  lemma {:induction false} TrimStartSplits(s: Text) returns (a: Text)
    ensures s == a + TrimStart(s) && Spaces(a)
    ensures TrimStart(s) != [] ==> !IsSpace(TrimStart(s)[0])
  {
    a := [];
    if s != [] && IsSpace(s[0]) {
      var b := TrimStartSplits(s[1..]);
      a := [s[0]] + b;
      assert s == [s[0]] + s[1..];
    }
  }

  lemma {:induction false} TrimEndSplits(s: Text) returns (z: Text)
    ensures s == TrimEnd(s) + z && Spaces(z)
    ensures TrimEnd(s) != [] ==> !IsSpace(TrimEnd(s)[|TrimEnd(s)| - 1])
  {
    z := [];
    if s != [] && IsSpace(s[|s| - 1]) {
      var b := TrimEndSplits(s[..|s| - 1]);
      z := b + [s[|s| - 1]];
      assert s == s[..|s| - 1] + [s[|s| - 1]];
    }
  }

  lemma TrimmedIsInner(value: Text)
    requires Trim(value) != []
    ensures exists a, z :: Inner(value, Trim(value), a, z)
  {
    var a := TrimStartSplits(value);
    var z := TrimEndSplits(TrimStart(value));
    assert TrimStart(value)[0] == Trim(value)[0];
    assert Inner(value, Trim(value), a, z);
  }

  /** A name of at most 64 code units, without control characters or direction marks, is accepted as the text between
      the spaces around it, if there is any. */
  lemma DisplayNameIs(value: Text, n: Text)
    ensures DisplayName(value) == Some(n)
            <==> |value| <= 64 && (forall c :: c in value ==> !IsForbidden(c)) && exists a, z :: Inner(value, n, a, z)
  {
    if Trim(value) != [] { TrimmedIsInner(value); }
    forall a, z | Inner(value, n, a, z) ensures Trim(value) == n { InnerIsTrimmed(value, n, a, z); }
  }
}
