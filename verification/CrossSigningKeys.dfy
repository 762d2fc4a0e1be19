/** Which keys are stored (src/crypto/CrossSigning.ts:111-162, 286-449), and what trust levels say
    (src/crypto/CrossSigning.ts:509-580, 609-709), without reference to how they are computed. */
module CrossSigningKeys {
  import opened Common
  import opened CrossSigning

  // ----- Signatures

  /** An object verifies exactly when there is a signature, not an empty one, under the signer's id and
      the id of the key, and it is right for that key and for the object. */
  lemma {:induction false} VerifiesIff(c: Crypto, body: Body, signatures: Signatures, pub: Option<string>, userId: string)
    ensures PkVerify(c, body, signatures, pub, userId) <==>
            exists signature :: signature != "" && pub.Some? && ((userId, "ed25519:" + pub.value), signature) in signatures.Items
                                && c.verify(pub.value, body, signature)
  {
    if PkVerify(c, body, signatures, pub, userId) {
      assert ((userId, "ed25519:" + pub.value), signatures[(userId, "ed25519:" + pub.value)]) in signatures.Items;
    }
  }

  /** What is signed determines the key, or the device, but for its signatures. */
  lemma {:induction false} BodiesDetermine(a: KeyInfo, b: KeyInfo, d: Device, u: string, e: Device, v: string)
    ensures a.Body() == b.Body() ==> a == b.(signatures := a.signatures)
    ensures d.Body(u) == e.Body(v) ==> u == v && d == e.(signatures := d.signatures)
    ensures a.Body() != d.Body(u)
  {
  }

  // ----- Setting keys

  /** Accepted keys with a master key are stored just as they are given, a missing one included;
      without one the master key stays, and so does every signing key that is not given. */
  lemma {:induction false} AcceptedKeysAreStored(c: Crypto, s: Info, given: Keys)
    requires Acceptable(c, s, given)
    ensures var s' := Step(c, s, Op.SetKeys(given));
            && (given.master.Some? ==>
                  s'.keys.master == given.master && s'.keys.selfSigning == given.selfSigning && s'.keys.userSigning == given.userSigning)
            && (given.master.None? ==>
                  && s'.keys.master == s.keys.master && s.keys.master.Some?
                  && s'.keys.selfSigning == (if given.selfSigning.Some? then given.selfSigning else s.keys.selfSigning)
                  && s'.keys.userSigning == (if given.userSigning.Some? then given.userSigning else s.keys.userSigning))
            && s'.userId == s.userId && s'.crossSigningVerifiedBefore == s.crossSigningVerifiedBefore
  {
  }

  /** The key, if there is one, is the user's and has been signed with the seed. */
  ghost predicate IsSignedWith(c: Crypto, key: Option<KeyInfo>, seed: string, userId: string) {
    key.Some? ==> key.value.userId == userId && exists k: KeyInfo :: key.value == k.SignedBy(c, seed, userId)
  }

  /** In any state, keys that the owner of the master key has signed are accepted. */
  lemma {:induction false} SignedKeysAreAccepted(c: Crypto, s: Info, given: Keys, seed: string)
    requires Sound(c)
    requires given.master.Some? || s.keys.master.Some?
    requires given.master.Some? ==> given.master.value.userId == s.userId
    requires (if given.master.Some? then given.master else s.keys.master).value.PublicKey() == Some(c.publicOf(seed))
    requires IsSignedWith(c, given.selfSigning, seed, s.userId) && IsSignedWith(c, given.userSigning, seed, s.userId)
    ensures Acceptable(c, s, given)
  {
    SignedWithVerifies(c, given.selfSigning, seed, s.userId);
    SignedWithVerifies(c, given.userSigning, seed, s.userId);
  }

  lemma {:induction false} SignedWithVerifies(c: Crypto, key: Option<KeyInfo>, seed: string, userId: string)
    requires Sound(c) && IsSignedWith(c, key, seed, userId)
    ensures Signed(c, key, Some(c.publicOf(seed)), userId)
  {
    if key.Some? {
      var k: KeyInfo :| key.value == k.SignedBy(c, seed, userId);
      SignThenVerify(c, k.Body(), k.signatures, seed, userId, Some(c.publicOf(seed)), userId);
    }
  }

  // ----- Private keys

  predicate Fits(c: Crypto, key: Option<string>, expected: Option<string>) {
    key.Some? && expected.Some? && c.publicOf(key.value) == expected.value
  }

  /** With a callback, a private key is found exactly when the cache or the application has one that
      fits the expected public key, and the one in the cache is preferred. */
  lemma {:induction false} PrivateKeyIff(c: Crypto, expected: Option<string>, source: Source)
    ensures PrivateKey(c, expected, source).Some? <==>
            source.hasCallback && (Fits(c, source.cached, expected) || Fits(c, source.supplied, expected))
    ensures source.hasCallback && Fits(c, source.cached, expected) ==> PrivateKey(c, expected, source) == source.cached
    ensures source.hasCallback && !Fits(c, source.cached, expected) && Fits(c, source.supplied, expected) ==>
              PrivateKey(c, expected, source) == source.supplied
  {
  }

  // ----- Which key is stored

  predicate ResetsAll(s: Info, level: Option<nat>) {
    level.None? || s.keys.master.None? || level.value / 4 % 2 == 1
  }

  predicate Covers(s: Info, level: Option<nat>, t: KeyType) {
    ResetsAll(s, level) || (t == SelfSigning && level.value % 2 == 1) || (t == UserSigning && level.value / 2 % 2 == 1)
  }

  /** The seed of the master key that signs the new keys: a new one, or the stored one's. */
  function SigningSeed(c: Crypto, s: Info, op: Op): Option<string>
    requires op.ResetKeys?
  {
    if ResetsAll(s, op.level) then Some(op.seeds.master)
    else if !op.source.hasCallback then None
    else if Fits(c, op.source.cached, s.keys.Id(Master)) then op.source.cached
    else if Fits(c, op.source.supplied, s.keys.Id(Master)) then op.source.supplied
    else None
  }

  /** A new key of that type; all but the master key are signed by the master key. */
  function NewKey(c: Crypto, userId: string, t: KeyType, seeds: Seeds, masterSeed: string): KeyInfo {
    var usage := match t case Master => "master" case SelfSigning => "self_signing" case UserSigning => "user_signing";
    var seed := match t case Master => seeds.master case SelfSigning => seeds.selfSigning case UserSigning => seeds.userSigning;
    var keys := [("ed25519:" + c.publicOf(seed), c.publicOf(seed))];
    KeyInfo(userId, [usage], keys,
            if t == Master then map[]
            else map[(userId, "ed25519:" + c.publicOf(masterSeed)) := c.sign(masterSeed, KeyBody(userId, [usage], keys))])
  }

  /** What an operation makes of the stored key of type t: None if it leaves it alone. */
  function Change(c: Crypto, s: Info, op: Op, t: KeyType): Option<Option<KeyInfo>> {
    match op
    case SetKeys(given) =>
      if !Acceptable(c, s, given) then None
      else if given.master.Some? then Some(given.Get(t))
      else if given.Get(t).Some? then Some(given.Get(t))
      else None
    case ResetKeys(canSave, level, seeds, _) =>
      var signing := SigningSeed(c, s, op);
      if canSave && Covers(s, level, t) && signing.Some? then Some(Some(NewKey(c, s.userId, t, seeds, signing.value))) else None
    case ClearKeys => Some(None)
    case MasterSigned(signer, seed) =>
      if t == Master && s.keys.master.Some? then
        var master := s.keys.master.value;
        var signature := c.sign(seed, KeyBody(master.userId, master.usage, master.keys));
        Some(Some(master.(signatures := master.signatures[(signer, "ed25519:" + c.publicOf(seed)) := signature])))
      else None
    case UpdateVerifiedBefore(_) => None
  }

  lemma {:induction false} StepChanges(c: Crypto, s: Info, op: Op, t: KeyType)
    ensures Step(c, s, op).keys.Get(t) == if Change(c, s, op, t).Some? then Change(c, s, op, t).value else s.keys.Get(t)
    ensures Step(c, s, op).userId == s.userId
  {
    if op.ResetKeys? {
      ResetChanges(c, s, op, t);
    }
  }

  lemma {:induction false} BitsOf(level: nat)
    ensures HasBit(level, MASTER) <==> level / 4 % 2 == 1
    ensures HasBit(level, SELF_SIGNING) <==> level % 2 == 1
    ensures HasBit(level, USER_SIGNING) <==> level / 2 % 2 == 1
    ensures HasBit(7, MASTER) && HasBit(7, SELF_SIGNING) && HasBit(7, USER_SIGNING)
  {
  }

  lemma {:induction false} CoversIff(s: Info, level: Option<nat>)
    ensures var effective := EffectiveLevel(level, s.keys);
            && (Covers(s, level, Master) <==> HasBit(effective, MASTER))
            && (Covers(s, level, SelfSigning) <==> HasBit(effective, SELF_SIGNING))
            && (Covers(s, level, UserSigning) <==> HasBit(effective, USER_SIGNING))
            && (effective == 0 ==> forall t :: !Covers(s, level, t))
  {
    if level.Some? { BitsOf(level.value); }
    BitsOf(7);
  }

  lemma {:induction false} SigningSeedIs(c: Crypto, s: Info, op: Op)
    requires op.ResetKeys?
    ensures MasterSeed(c, s, EffectiveLevel(op.level, s.keys), op.seeds, op.source) == SigningSeed(c, s, op)
  {
    CoversIff(s, op.level);
    PrivateKeyIff(c, s.keys.Id(Master), op.source);
  }

  lemma {:induction false} ResetToIs(c: Crypto, s: Info, level: nat, seeds: Seeds, masterSeed: string)
    ensures var keys := ResetTo(c, s, level, seeds, masterSeed);
            && keys.master == (if HasBit(level, MASTER) then Some(NewKey(c, s.userId, Master, seeds, masterSeed)) else s.keys.master)
            && keys.selfSigning ==
               (if HasBit(level, SELF_SIGNING) then Some(NewKey(c, s.userId, SelfSigning, seeds, masterSeed)) else s.keys.selfSigning)
            && keys.userSigning ==
               (if HasBit(level, USER_SIGNING) then Some(NewKey(c, s.userId, UserSigning, seeds, masterSeed)) else s.keys.userSigning)
  {
  }

  lemma {:induction false} ResetChanges(c: Crypto, s: Info, op: Op, t: KeyType)
    requires op.ResetKeys?
    ensures Step(c, s, op).keys.Get(t) == if Change(c, s, op, t).Some? then Change(c, s, op, t).value else s.keys.Get(t)
  {
    CoversIff(s, op.level);
    SigningSeedIs(c, s, op);
    if SigningSeed(c, s, op).Some? {
      ResetToIs(c, s, EffectiveLevel(op.level, s.keys), op.seeds, SigningSeed(c, s, op).value);
    }
  }

  /** The i-th operation of a run is the last one that changes the key of type t. */
  ghost predicate LastChange(c: Crypto, s: Info, ops: seq<Op>, t: KeyType, i: nat) {
    && i < |ops| && Change(c, After(c, s, ops[..i]), ops[i], t).Some?
    && forall j :: i < j < |ops| ==> Change(c, After(c, s, ops[..j]), ops[j], t).None?
  }

  ghost predicate NeverChanged(c: Crypto, s: Info, ops: seq<Op>, t: KeyType) {
    forall j :: 0 <= j < |ops| ==> Change(c, After(c, s, ops[..j]), ops[j], t).None?
  }

  /** Over every run, each stored key is what the last operation to change it has made of it: the one
      accepted, the new one, none after clearing, or the old one with one more signature. */
  lemma {:induction false} StoredKeyIsLastChange(c: Crypto, s: Info, ops: seq<Op>, t: KeyType, i: nat)
    requires LastChange(c, s, ops, t, i)
    ensures After(c, s, ops).keys.Get(t) == Change(c, After(c, s, ops[..i]), ops[i], t).value
  {
    var n := |ops| - 1;
    StepChanges(c, After(c, s, ops[..n]), ops[n], t);
    if i < n {
      forall j | i <= j < n
        ensures ops[..n][..j] == ops[..j]
      {
      }
      StoredKeyIsLastChange(c, s, ops[..n], t, i);
    }
  }

  lemma {:induction false} UnchangedKeyStays(c: Crypto, s: Info, ops: seq<Op>, t: KeyType)
    requires NeverChanged(c, s, ops, t)
    ensures After(c, s, ops).keys.Get(t) == s.keys.Get(t)
  {
    if ops != [] {
      var n := |ops| - 1;
      StepChanges(c, After(c, s, ops[..n]), ops[n], t);
      forall j | 0 <= j < n
        ensures ops[..n][..j] == ops[..j]
      {
      }
      UnchangedKeyStays(c, s, ops[..n], t);
    }
  }

  // ----- Trust levels

  /** Verified, verified before, and trusted on first use. My own identity takes the last from me; of
      anyone else it and the latch are theirs, but there is no latch without a user-signing key. */
  lemma {:induction false} UserTrustSays(c: Crypto, me: Info, them: Info)
    ensures var trust := UserTrust(c, me, them);
            && (trust.crossSigningVerified <==>
                  SameIdentity(me, them)
                  || (&& me.keys.userSigning.Some? && them.keys.master.Some?
                      && them.keys.master.value.VerifiesUnder(c, me.keys.Id(UserSigning), me.userId)))
            && (trust.crossSigningVerifiedBefore <==>
                  SameIdentity(me, them) || (me.keys.userSigning.Some? && them.crossSigningVerifiedBefore))
            && (trust.tofu <==> if SameIdentity(me, them) then me.firstUse else them.firstUse)
  {
  }

  /** Their self-signing key, signed by their master key, has signed the device. */
  predicate OwnerVouches(c: Crypto, them: Info, device: Device) {
    && them.keys.selfSigning.Some?
    && them.keys.selfSigning.value.VerifiesUnder(c, them.keys.Id(Master), them.userId)
    && PkVerify(c, device.Body(them.userId), device.signatures, them.keys.Id(SelfSigning), them.userId)
  }

  /** A device is trusted as far as its user if the user vouches for it. It is verified if it is
      verified locally, or cross-signing verified where cross-signed devices are trusted: without
      that trust, a signature alone never makes it verified. */
  lemma {:induction false} DeviceTrustSays(c: Crypto, me: Info, them: Info, device: Device, localTrust: bool, trustCrossSigned: bool)
    ensures var user, trust := UserTrust(c, me, them), DeviceTrust(c, me, them, device, localTrust, trustCrossSigned);
            && (trust.crossSigningVerified <==> user.crossSigningVerified && OwnerVouches(c, them, device))
            && (trust.tofu <==> user.tofu && OwnerVouches(c, them, device))
            && (trust.IsVerified() <==> localTrust || (trustCrossSigned && trust.crossSigningVerified))
            && (!localTrust && !trustCrossSigned ==> !trust.IsVerified())
  {
  }
}
