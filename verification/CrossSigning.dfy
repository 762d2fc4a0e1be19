/** A user's cross-signing keys (src/crypto/CrossSigning.ts), and the trust that their signatures
    carry. Signing and verifying are parameters; all that is used of them is that what a key signs
    verifies under its public half. */
module CrossSigning {
  import opened Common

  // ----- Signatures

  datatype KeyType = Master | SelfSigning | UserSigning

  /** What a signature covers: an object without its signatures. Public keys come in the order in
      which the source lists them. */
  datatype Body =
    | KeyBody(userId: string, usage: seq<string>, keys: seq<(string, string)>)
    | DeviceBody(userId: string, algorithms: seq<string>, deviceKeys: map<string, string>, deviceId: string)

  /** Signatures by user and key id. */
  type Signatures = map<(string, string), string>

  datatype Crypto = Crypto(publicOf: string -> string, sign: (string, Body) -> string, verify: (string, Body, string) -> bool)

  ghost predicate Sound(c: Crypto) {
    && (forall seed :: c.publicOf(seed) != "")
    && (forall seed, b :: c.sign(seed, b) != "" && c.verify(c.publicOf(seed), b, c.sign(seed, b)))
  }

  function KeyId(pub: string): string {
    "ed25519:" + pub
  }

  function PkSign(c: Crypto, body: Body, signatures: Signatures, seed: string, userId: string, pub: string): Signatures {
    signatures[(userId, KeyId(pub)) := c.sign(seed, body)]
  }

  /** Whether the source's check passes; it throws otherwise. Nothing verifies under a missing key. */
  predicate PkVerify(c: Crypto, body: Body, signatures: Signatures, pub: Option<string>, userId: string) {
    && pub.Some?
    && (userId, KeyId(pub.value)) in signatures
    && signatures[(userId, KeyId(pub.value))] != ""
    && c.verify(pub.value, body, signatures[(userId, KeyId(pub.value))])
  }

  lemma {:induction false} KeyIdInjective(a: string, b: string)
    requires KeyId(a) == KeyId(b)
    ensures a == b
  {
    assert a == KeyId(a)[|"ed25519:"|..];
    assert b == KeyId(b)[|"ed25519:"|..];
  }

  /** A signature just made verifies, and every other signature verifies or not as before. */
  lemma {:induction false} SignThenVerify(c: Crypto, body: Body, signatures: Signatures, seed: string, userId: string, pub: Option<string>, otherId: string)
    requires Sound(c)
    ensures var signed := PkSign(c, body, signatures, seed, userId, c.publicOf(seed));
            PkVerify(c, body, signed, pub, otherId)
            <==> PkVerify(c, body, signatures, pub, otherId) || (otherId == userId && pub == Some(c.publicOf(seed)))
  {
    if pub.Some? && KeyId(pub.value) == KeyId(c.publicOf(seed)) {
      KeyIdInjective(pub.value, c.publicOf(seed));
    }
  }

  // ----- Keys

  datatype KeyInfo = KeyInfo(userId: string, usage: seq<string>, keys: seq<(string, string)>, signatures: Signatures) {
    function Body(): Body {
      KeyBody(userId, usage, keys)
    }

    /** Only a single key is expected. */
    function PublicKey(): Option<string> {
      if keys == [] then None else Some(keys[0].1)
    }

    predicate VerifiesUnder(c: Crypto, pub: Option<string>, signer: string) {
      PkVerify(c, Body(), signatures, pub, signer)
    }

    function SignedBy(c: Crypto, seed: string, signer: string): KeyInfo {
      this.(signatures := PkSign(c, Body(), signatures, seed, signer, c.publicOf(seed)))
    }
  }

  datatype Device = Device(deviceId: string, algorithms: seq<string>, keys: map<string, string>, signatures: Signatures) {
    function Body(userId: string): Body {
      DeviceBody(userId, algorithms, keys, deviceId)
    }
  }

  datatype Keys = Keys(master: Option<KeyInfo>, selfSigning: Option<KeyInfo>, userSigning: Option<KeyInfo>) {
    function Get(t: KeyType): Option<KeyInfo> {
      match t
      case Master => master
      case SelfSigning => selfSigning
      case UserSigning => userSigning
    }

    function Id(t: KeyType): Option<string> {
      if Get(t).None? then None else Get(t).value.PublicKey()
    }
  }

  const NO_KEYS := Keys(None, None, None)

  /** The state of one CrossSigningInfo. */
  datatype Info = Info(userId: string, keys: Keys, firstUse: bool, crossSigningVerifiedBefore: bool)

  /** A stored self-signing or user-signing key is the user's own and verifies under the stored
      master key. */
  ghost predicate Chained(c: Crypto, s: Info) {
    && (s.keys.master.Some? ==> s.keys.master.value.userId == s.userId)
    && Signed(c, s.keys.selfSigning, s.keys.Id(Master), s.userId)
    && Signed(c, s.keys.userSigning, s.keys.Id(Master), s.userId)
  }

  /** If there is such a key, it belongs to the user and verifies under the given master key. */
  predicate Signed(c: Crypto, key: Option<KeyInfo>, master: Option<string>, userId: string) {
    key.Some? ==> key.value.userId == userId && key.value.VerifiesUnder(c, master, userId)
  }

  // ----- Setting keys

  function Or<T>(a: Option<T>, b: Option<T>): Option<T> {
    if a.Some? then a else b
  }

  /** The master key that the new keys are checked against: a given one, or else the stored one. */
  predicate Acceptable(c: Crypto, s: Info, given: Keys) {
    var master := Or(given.master, s.keys.master);
    && master.Some?
    && (given.master.Some? ==> given.master.value.userId == s.userId)
    && Signed(c, given.userSigning, master.value.PublicKey(), s.userId)
    && Signed(c, given.selfSigning, master.value.PublicKey(), s.userId)
  }

  /** A given master key makes the stored signing keys obsolete. */
  function Merged(stored: Keys, given: Keys): Keys {
    if given.master.Some? then given
    else Keys(stored.master, Or(given.selfSigning, stored.selfSigning), Or(given.userSigning, stored.userSigning))
  }

  function FirstUseAfter(s: Info, given: Keys): bool {
    if given.master.None? || given.master.value.userId != s.userId then s.firstUse
    else if s.keys.master.None? then true
    else if given.master.value.PublicKey() != s.keys.Id(Master) then false
    else s.firstUse
  }

  // ----- Resetting keys

  datatype Seeds = Seeds(master: string, selfSigning: string, userSigning: string)

  /** Where getCrossSigningKey looks for a private key: the cache, then the application. */
  datatype Source = Source(hasCallback: bool, cached: Option<string>, supplied: Option<string>)

  function PrivateKey(c: Crypto, expected: Option<string>, source: Source): Option<string> {
    if !source.hasCallback then None
    else if source.cached.Some? && Some(c.publicOf(source.cached.value)) == expected then source.cached
    else if source.supplied.Some? && Some(c.publicOf(source.supplied.value)) == expected then source.supplied
    else None
  }

  const MASTER: nat := 4
  const USER_SIGNING: nat := 2
  const SELF_SIGNING: nat := 1

  predicate HasBit(level: nat, bit: nat)
    requires bit > 0
  {
    level / bit % 2 == 1
  }

  /** Resetting the master key resets all keys. */
  function EffectiveLevel(level: Option<nat>, keys: Keys): nat {
    if level.None? || HasBit(level.value, MASTER) || keys.master.None? then 7 else level.value
  }

  function FreshKey(c: Crypto, userId: string, usage: string, seed: string): KeyInfo {
    KeyInfo(userId, [usage], [(KeyId(c.publicOf(seed)), c.publicOf(seed))], map[])
  }

  /** The seed that signs the new keys, if there is one. */
  function MasterSeed(c: Crypto, s: Info, level: nat, seeds: Seeds, source: Source): Option<string> {
    if HasBit(level, MASTER) then Some(seeds.master) else PrivateKey(c, s.keys.Id(Master), source)
  }

  function ResetTo(c: Crypto, s: Info, level: nat, seeds: Seeds, masterSeed: string): Keys {
    Keys(
      if HasBit(level, MASTER) then Some(FreshKey(c, s.userId, "master", seeds.master)) else s.keys.master,
      if HasBit(level, SELF_SIGNING)
      then Some(FreshKey(c, s.userId, "self_signing", seeds.selfSigning).SignedBy(c, masterSeed, s.userId))
      else s.keys.selfSigning,
      if HasBit(level, USER_SIGNING)
      then Some(FreshKey(c, s.userId, "user_signing", seeds.userSigning).SignedBy(c, masterSeed, s.userId))
      else s.keys.userSigning)
  }

  // ----- Runs

  datatype Op =
    | SetKeys(given: Keys)
    | ResetKeys(canSave: bool, level: Option<nat>, seeds: Seeds, source: Source)
    | ClearKeys
    | UpdateVerifiedBefore(verified: bool)
    | MasterSigned(signer: string, seed: string)

  function Step(c: Crypto, s: Info, op: Op): Info {
    match op
    case SetKeys(given) =>
      s.(keys := if Acceptable(c, s, given) then Merged(s.keys, given) else s.keys,
         firstUse := FirstUseAfter(s, given))
    case ResetKeys(canSave, level, seeds, source) =>
      var effective := EffectiveLevel(level, s.keys);
      var masterSeed := MasterSeed(c, s, effective, seeds, source);
      if canSave && effective != 0 && masterSeed.Some?
      then s.(keys := ResetTo(c, s, effective, seeds, masterSeed.value))
      else s
    case ClearKeys => s.(keys := NO_KEYS)
    case UpdateVerifiedBefore(verified) =>
      s.(crossSigningVerifiedBefore := s.crossSigningVerifiedBefore || verified)
    case MasterSigned(signer, seed) =>
      if s.keys.master.None? then s
      else s.(keys := s.keys.(master := Some(s.keys.master.value.SignedBy(c, seed, signer))))
  }

  function After(c: Crypto, s: Info, ops: seq<Op>): Info {
    if ops == [] then s else Step(c, After(c, s, ops[..|ops| - 1]), ops[|ops| - 1])
  }

  // ----- Trust

  datatype UserTrustLevel = UserTrustLevel(crossSigningVerified: bool, crossSigningVerifiedBefore: bool, tofu: bool)

  datatype DeviceTrustLevel = DeviceTrustLevel(crossSigningVerified: bool, tofu: bool, localVerified: bool, trustCrossSignedDevices: bool) {
    predicate IsVerified() {
      localVerified || (trustCrossSignedDevices && crossSigningVerified)
    }
  }

  predicate Truthy(id: Option<string>) {
    id.Some? && id.value != ""
  }

  /** Both are about the same user with the same master and self-signing keys. */
  predicate SameIdentity(me: Info, them: Info) {
    && me.userId == them.userId
    && Truthy(me.keys.Id(Master)) && me.keys.Id(Master) == them.keys.Id(Master)
    && Truthy(me.keys.Id(SelfSigning)) && me.keys.Id(SelfSigning) == them.keys.Id(SelfSigning)
  }

  function UserTrust(c: Crypto, me: Info, them: Info): UserTrustLevel {
    if SameIdentity(me, them) then UserTrustLevel(true, true, me.firstUse)
    else if me.keys.userSigning.None? then UserTrustLevel(false, false, them.firstUse)
    else
      var verified := them.keys.master.Some? && them.keys.master.value.VerifiesUnder(c, me.keys.Id(UserSigning), me.userId);
      UserTrustLevel(verified, them.crossSigningVerifiedBefore, them.firstUse)
  }

  function DeviceTrust(c: Crypto, me: Info, them: Info, device: Device, localTrust: bool, trustCrossSigned: bool): DeviceTrustLevel {
    var userTrust := UserTrust(c, me, them);
    var ssk := them.keys.selfSigning;
    if && ssk.Some?
       && ssk.value.VerifiesUnder(c, them.keys.Id(Master), them.userId)
       && PkVerify(c, device.Body(them.userId), device.signatures, ssk.value.PublicKey(), them.userId)
    then DeviceTrustLevel(userTrust.crossSigningVerified, userTrust.tofu, localTrust, trustCrossSigned)
    else DeviceTrustLevel(false, false, localTrust, trustCrossSigned)
  }

  // ----- The class

  datatype Error =
    | MismatchedUserId(t: KeyType)
    | NoMasterKey
    | BadSignature(t: KeyType)
    | NoCallback
    | NoPrivateKey
    | WrongPrivateKey
    | NoSuchKey
    | NotOurDevice

  datatype Result<T> = Ok(value: T) | Err(error: Error)

  class CrossSigningInfo {
    const userId: string
    var keys: Keys
    var firstUse: bool
    var crossSigningVerifiedBefore: bool

    ghost function State(): Info
      reads this
    {
      Info(userId, keys, firstUse, crossSigningVerifiedBefore)
    }

    constructor (userId: string)
      ensures State() == Info(userId, NO_KEYS, true, false)
    {
      this.userId, keys, firstUse, crossSigningVerifiedBefore := userId, NO_KEYS, true, false;
    }

    /** An error stands for an exception; the keys are then left as they were. */
    method SetKeys(c: Crypto, given: Keys) returns (error: Option<Error>)
      modifies this
      ensures State() == Step(c, old(State()), Op.SetKeys(given))
      ensures error.None? <==> Acceptable(c, old(State()), given)
      ensures error == Some(NoMasterKey) <==> given.master.None? && old(keys).master.None?
      ensures error == Some(MismatchedUserId(Master)) <==> given.master.Some? && given.master.value.userId != userId
      ensures error.Some? && error.value !in {NoMasterKey, MismatchedUserId(Master)} ==>
                && Or(given.master, old(keys).master).Some?
                && var masterKey := Or(given.master, old(keys).master).value.PublicKey();
                if Signed(c, given.userSigning, masterKey, userId)
                then IsErrorOf(error.value, SelfSigning, given.selfSigning) else IsErrorOf(error.value, UserSigning, given.userSigning)
    {
      var signingMaster;
      if given.master.Some? {
        if given.master.value.userId != userId {
          return Some(MismatchedUserId(Master));
        }
        if keys.master.None? {
          firstUse := true;
        } else if given.master.value.PublicKey() != keys.Id(Master) {
          firstUse := false;
        }
        signingMaster := given.master.value;
      } else if keys.master.Some? {
        signingMaster := keys.master.value;
      } else {
        return Some(NoMasterKey);
      }
      var masterKey := signingMaster.PublicKey();
      error := CheckSigned(c, UserSigning, given.userSigning, masterKey);
      if error.Some? { return; }
      error := CheckSigned(c, SelfSigning, given.selfSigning, masterKey);
      if error.Some? { return; }
      if given.master.Some? {
        keys := Keys(given.master, None, None);
      }
      if given.selfSigning.Some? {
        keys := keys.(selfSigning := given.selfSigning);
      }
      if given.userSigning.Some? {
        keys := keys.(userSigning := given.userSigning);
      }
    }

    predicate IsErrorOf(error: Error, t: KeyType, key: Option<KeyInfo>) {
      key.Some? && error == (if key.value.userId != userId then MismatchedUserId(t) else BadSignature(t))
    }

    /** Checks one of the signing keys, if it was given. */
    method CheckSigned(c: Crypto, t: KeyType, key: Option<KeyInfo>, masterKey: Option<string>) returns (error: Option<Error>)
      ensures error.None? <==> Signed(c, key, masterKey, userId)
      ensures error.Some? ==> IsErrorOf(error.value, t, key)
    {
      if key.Some? {
        if key.value.userId != userId {
          return Some(MismatchedUserId(t));
        }
        if !key.value.VerifiesUnder(c, masterKey, userId) {
          return Some(BadSignature(t));
        }
      }
      return None;
    }

    /** A private key for the expected public key, or else for the stored one, from the cache or else
        from the application; store tells whether it has to be put into the cache. */
    method GetCrossSigningKey(c: Crypto, t: KeyType, expectedPubkey: Option<string>, source: Source) returns (r: Result<string>, store: bool)
      ensures var expected := Or(expectedPubkey, keys.Id(t));
              && (r.Ok? <==> PrivateKey(c, expected, source).Some?)
              && (r.Ok? ==> r.value == PrivateKey(c, expected, source).value && expected == Some(c.publicOf(r.value)))
      ensures r.Err? ==>
                r.error == (if !source.hasCallback then NoCallback else if source.supplied.None? then NoPrivateKey else WrongPrivateKey)
      ensures store <==> r.Ok? && source.cached != Some(r.value)
    {
      store := false;
      if !source.hasCallback {
        return Err(NoCallback), false;
      }
      var expected := if expectedPubkey.None? then keys.Id(t) else expectedPubkey;
      if source.cached.Some? && Some(c.publicOf(source.cached.value)) == expected {
        return Ok(source.cached.value), false;
      }
      if source.supplied.None? {
        return Err(NoPrivateKey), false;
      }
      if Some(c.publicOf(source.supplied.value)) == expected {
        return Ok(source.supplied.value), true;
      }
      return Err(WrongPrivateKey), false;
    }

    /** Every private key that is handed out to be saved belongs to the key that is then stored. */
    method ResetKeys(c: Crypto, canSave: bool, level: Option<nat>, seeds: Seeds, source: Source) returns (r: Result<map<KeyType, string>>)
      modifies this
      ensures State() == Step(c, old(State()), Op.ResetKeys(canSave, level, seeds, source))
      ensures r.Err? ==> keys == old(keys)
      ensures r.Err? <==> || !canSave
                          || (&& EffectiveLevel(level, old(keys)) != 0
                              && MasterSeed(c, old(State()), EffectiveLevel(level, old(keys)), seeds, source).None?)
      ensures r.Ok? ==> forall t <- r.value :: keys.Id(t) == Some(c.publicOf(r.value[t]))
      ensures r.Ok? ==> forall t :: t !in r.value ==> keys.Get(t) == old(keys).Get(t)
    {
      if !canSave {
        return Err(NoCallback);
      }
      var effective: nat := 0;
      if level.None? || HasBit(level.value, MASTER) || keys.master.None? {
        effective := MASTER + USER_SIGNING + SELF_SIGNING;
      } else if level.value == 0 {
        return Ok(map[]);
      } else {
        effective := level.value;
      }
      var privateKeys: map<KeyType, string> := map[];
      var newKeys, masterSeed := keys, "";
      if HasBit(effective, MASTER) {
        masterSeed := seeds.master;
        privateKeys := privateKeys[Master := seeds.master];
        newKeys := newKeys.(master := Some(FreshKey(c, userId, "master", seeds.master)));
      } else {
        var key, store := GetCrossSigningKey(c, Master, None, source);
        if key.Err? {
          return Err(key.error);
        }
        masterSeed := key.value;
      }
      if HasBit(effective, SELF_SIGNING) {
        privateKeys := privateKeys[SelfSigning := seeds.selfSigning];
        newKeys := newKeys.(selfSigning := Some(FreshKey(c, userId, "self_signing", seeds.selfSigning).SignedBy(c, masterSeed, userId)));
      }
      if HasBit(effective, USER_SIGNING) {
        privateKeys := privateKeys[UserSigning := seeds.userSigning];
        newKeys := newKeys.(userSigning := Some(FreshKey(c, userId, "user_signing", seeds.userSigning).SignedBy(c, masterSeed, userId)));
      }
      keys := newKeys;
      return Ok(privateKeys);
    }

    method ClearKeys()
      modifies this
      ensures State() == old(State()).(keys := NO_KEYS)
    {
      keys := NO_KEYS;
    }

    method UpdateCrossSigningVerifiedBefore(isCrossSigningVerified: bool)
      modifies this
      ensures State() == old(State()).(crossSigningVerifiedBefore := old(crossSigningVerifiedBefore) || isCrossSigningVerified)
    {
      if !crossSigningVerifiedBefore && isCrossSigningVerified {
        crossSigningVerifiedBefore := true;
      }
    }

    /** Signs the other user's master key in place. None means that there was nothing to sign with. */
    method SignUser(c: Crypto, other: CrossSigningInfo, source: Source) returns (r: Option<Result<KeyInfo>>)
      modifies other
      ensures r.None? <==> old(keys).userSigning.None?
      ensures r.Some? && r.value.Err? ==> unchanged(other)
      ensures r.Some? ==> (r.value.Ok? <==> PrivateKey(c, old(keys).Id(UserSigning), source).Some? && old(other.keys).master.Some?)
      ensures r.Some? && r.value.Ok? ==>
                && other.State() == Step(c, old(other.State()), MasterSigned(userId, PrivateKey(c, old(keys).Id(UserSigning), source).value))
                && other.keys.master == Some(r.value.value)
      ensures r.None? ==> unchanged(other)
    {
      if keys.userSigning.None? {
        return None;
      }
      var seed, store := GetCrossSigningKey(c, UserSigning, None, source);
      if seed.Err? {
        return Some(Err(seed.error));
      }
      if other.keys.master.None? {
        return Some(Err(NoSuchKey));
      }
      var signed := other.keys.master.value.SignedBy(c, seed.value, userId);
      other.keys := other.keys.(master := Some(signed));
      return Some(Ok(signed));
    }

    /** Signs one of the user's own devices, whose other signatures are left behind. */
    method SignDevice(c: Crypto, deviceUserId: string, device: Device, source: Source) returns (r: Option<Result<Device>>)
      ensures r == Some(Err(NotOurDevice)) <==> deviceUserId != userId
      ensures r.None? <==> deviceUserId == userId && keys.selfSigning.None?
      ensures r.Some? && deviceUserId == userId ==> (r.value.Ok? <==> PrivateKey(c, keys.Id(SelfSigning), source).Some?)
      ensures r.Some? && r.value.Ok? ==> r.value.value == DeviceSignedBy(c, device, PrivateKey(c, keys.Id(SelfSigning), source).value, userId)
    {
      if deviceUserId != userId {
        return Some(Err(NotOurDevice));
      }
      if keys.selfSigning.None? {
        return None;
      }
      var seed, store := GetCrossSigningKey(c, SelfSigning, None, source);
      if seed.Err? {
        return Some(Err(seed.error));
      }
      return Some(Ok(DeviceSignedBy(c, device, seed.value, userId)));
    }

    /** Verified are my own identity, and whoever's master key my user-signing key has signed. */
    method CheckUserTrust(c: Crypto, other: CrossSigningInfo) returns (trust: UserTrustLevel)
      ensures trust == UserTrust(c, State(), other.State())
    {
      var own := userId == other.userId;
      if own && Truthy(keys.Id(Master)) && keys.Id(Master) == other.keys.Id(Master)
         && Truthy(keys.Id(SelfSigning)) && keys.Id(SelfSigning) == other.keys.Id(SelfSigning)
      {
        return UserTrustLevel(true, true, firstUse);
      }
      if keys.userSigning.None? {
        return UserTrustLevel(false, false, other.firstUse);
      }
      var userTrusted := false;
      if other.keys.master.Some? {
        userTrusted := other.keys.master.value.VerifiesUnder(c, keys.Id(UserSigning), userId);
      }
      return UserTrustLevel(userTrusted, other.crossSigningVerifiedBefore, other.firstUse);
    }

    /** In chained states, a verified device has an unbroken path of signatures from my master key; the
        path through my user-signing key is enough, and the other one is when I hold the same
        self-signing key. */
    method CheckDeviceTrust(c: Crypto, other: CrossSigningInfo, device: Device, localTrust: bool, trustCrossSigned: bool)
      returns (trust: DeviceTrustLevel)
      ensures trust == DeviceTrust(c, State(), other.State(), device, localTrust, trustCrossSigned)
      ensures Chained(c, State()) && Chained(c, other.State()) ==>
                (trust.crossSigningVerified <==>
                  CrossChain(c, State(), other.State(), device)
                  || (OwnChain(c, State(), other.State(), device) && HoldsSelfSigning(State(), other.State())))
    {
      if Chained(c, State()) && Chained(c, other.State()) {
        DeviceIsVerifiedIff(c, State(), other.State(), device, localTrust, trustCrossSigned);
      }
      var userTrust := CheckUserTrust(c, other);
      if other.keys.selfSigning.None? {
        return DeviceTrustLevel(false, false, localTrust, trustCrossSigned);
      }
      var userSSK := other.keys.selfSigning.value;
      if userSSK.VerifiesUnder(c, other.keys.Id(Master), other.userId)
         && PkVerify(c, device.Body(other.userId), device.signatures, userSSK.PublicKey(), other.userId)
      {
        return DeviceTrustLevel(userTrust.crossSigningVerified, userTrust.tofu, localTrust, trustCrossSigned);
      }
      return DeviceTrustLevel(false, false, localTrust, trustCrossSigned);
    }
  }

  function DeviceSignedBy(c: Crypto, device: Device, seed: string, userId: string): Device {
    device.(signatures := PkSign(c, device.Body(userId), map[], seed, userId, c.publicOf(seed)))
  }

  // ----- The chain of signatures is never broken

  lemma {:induction false} ResetIsChained(c: Crypto, s: Info, level: nat, seeds: Seeds, masterSeed: string)
    requires Sound(c) && Chained(c, s)
    requires if HasBit(level, MASTER) then masterSeed == seeds.master && level == 7 else s.keys.Id(Master) == Some(c.publicOf(masterSeed))
    ensures Chained(c, s.(keys := ResetTo(c, s, level, seeds, masterSeed)))
  {
    var ssk := FreshKey(c, s.userId, "self_signing", seeds.selfSigning);
    var usk := FreshKey(c, s.userId, "user_signing", seeds.userSigning);
    var pub := Some(c.publicOf(masterSeed));
    SignThenVerify(c, ssk.Body(), ssk.signatures, masterSeed, s.userId, pub, s.userId);
    SignThenVerify(c, usk.Body(), usk.signatures, masterSeed, s.userId, pub, s.userId);
  }

  lemma {:induction false} StepKeepsChain(c: Crypto, s: Info, op: Op)
    requires Sound(c) && Chained(c, s)
    ensures Chained(c, Step(c, s, op))
  {
    if op.ResetKeys? {
      var level := EffectiveLevel(op.level, s.keys);
      var seed := MasterSeed(c, s, level, op.seeds, op.source);
      if op.canSave && level != 0 && seed.Some? {
        ResetIsChained(c, s, level, op.seeds, seed.value);
      }
    }
  }

  /** Whatever keys are set, reset, cleared or signed, and in whatever order. */
  lemma {:induction false} RunKeepsChain(c: Crypto, s: Info, ops: seq<Op>)
    requires Sound(c) && Chained(c, s)
    ensures Chained(c, After(c, s, ops))
  {
    if ops != [] {
      RunKeepsChain(c, s, ops[..|ops| - 1]);
      StepKeepsChain(c, After(c, s, ops[..|ops| - 1]), ops[|ops| - 1]);
    }
  }

  /** The latch is set exactly when it was at first or a verification has been seen since. */
  lemma {:induction false} VerifiedBeforeLatches(c: Crypto, s: Info, ops: seq<Op>)
    ensures After(c, s, ops).crossSigningVerifiedBefore
            <==> s.crossSigningVerifiedBefore || UpdateVerifiedBefore(true) in ops
  {
    if ops != [] {
      var last := |ops| - 1;
      VerifiedBeforeLatches(c, s, ops[..last]);
      assert ops == ops[..last] + [ops[last]];
    }
  }

  /** Setting the very keys that are stored is accepted and changes nothing. */
  lemma {:induction false} SettingStoredKeysIsIdentity(c: Crypto, s: Info)
    requires Chained(c, s) && s.keys.master.Some?
    ensures Acceptable(c, s, s.keys) && Step(c, s, Op.SetKeys(s.keys)) == s
  {
    assert Or(s.keys.master, s.keys.master) == s.keys.master;
  }

  /** When setKeys throws, firstUse may still have changed: it is assigned before the signatures are
      checked. Nothing at all changes exactly when no rightful master key was given, or the flag
      already had its new value. */
  lemma {:induction false} FailedSetKeysIsInertIff(c: Crypto, s: Info, given: Keys)
    requires !Acceptable(c, s, given)
    ensures Step(c, s, Op.SetKeys(given)).keys == s.keys
    ensures Step(c, s, Op.SetKeys(given)) == s <==>
            || given.master.None? || given.master.value.userId != s.userId
            || (if s.keys.master.None? then s.firstUse
                else given.master.value.PublicKey() == s.keys.Id(Master) || !s.firstUse)
  {
  }

  const KNOWN := Keys(Some(KeyInfo("@a:x", ["master"], [("ed25519:m", "m")], map[])), None, None)
  const UNSIGNED := Keys(Some(KeyInfo("@a:x", ["master"], [("ed25519:n", "n")], map[])),
                         Some(KeyInfo("@a:x", ["self_signing"], [("ed25519:s", "s")], map[])), None)

  /** Another master key with a self-signing key that it has not signed: the keys are refused, and
      firstUse has gone. */
  lemma {:induction false} FirstUseIsNotRolledBack(c: Crypto)
    ensures var s := Info("@a:x", KNOWN, true, false);
            && After(c, Info("@a:x", NO_KEYS, true, false), [Op.SetKeys(KNOWN)]) == s
            && !Acceptable(c, s, UNSIGNED) && Step(c, s, Op.SetKeys(UNSIGNED)) == s.(firstUse := false)
  {
    var start := Info("@a:x", NO_KEYS, true, false);
    assert [Op.SetKeys(KNOWN)][..0] == [] && After(c, start, []) == start;
    assert Acceptable(c, start, KNOWN);
    assert !UNSIGNED.selfSigning.value.VerifiesUnder(c, Some("n"), "@a:x");
  }

  /** The master key given at the i-th operation is the user's, and the first one or another one. */
  ghost predicate ShowsFirst(c: Crypto, s: Info, ops: seq<Op>, i: nat)
    requires i < |ops|
  {
    && ops[i].SetKeys? && ops[i].given.master.Some? && ops[i].given.master.value.userId == s.userId
    && After(c, s, ops[..i]).keys.master.None?
  }

  ghost predicate ShowsOther(c: Crypto, s: Info, ops: seq<Op>, i: nat)
    requires i < |ops|
  {
    && ops[i].SetKeys? && ops[i].given.master.Some? && ops[i].given.master.value.userId == s.userId
    && After(c, s, ops[..i]).keys.master.Some? && ops[i].given.master.value.PublicKey() != After(c, s, ops[..i]).keys.Id(Master)
  }

  /** No master key has been given with none stored since the i-th operation. */
  ghost predicate NoFirstSince(c: Crypto, s: Info, ops: seq<Op>, i: nat) {
    forall j :: i <= j < |ops| ==> !ShowsFirst(c, s, ops, j)
  }

  /** First use had gone at the start, or another master key was given, accepted or not, and no key
      has been given since with none stored. */
  ghost predicate FirstUseGone(c: Crypto, s: Info, ops: seq<Op>) {
    || (!s.firstUse && NoFirstSince(c, s, ops, 0))
    || exists i :: 0 <= i < |ops| && ShowsOther(c, s, ops, i) && NoFirstSince(c, s, ops, i + 1)
  }

  lemma {:induction false} SameShows(c: Crypto, s: Info, ops: seq<Op>, n: nat)
    requires n < |ops|
    ensures forall i :: 0 <= i < n ==> (ShowsFirst(c, s, ops[..n], i) <==> ShowsFirst(c, s, ops, i))
    ensures forall i :: 0 <= i < n ==> (ShowsOther(c, s, ops[..n], i) <==> ShowsOther(c, s, ops, i))
  {
    forall i | 0 <= i < n
      ensures ops[..n][..i] == ops[..i]
    {
    }
  }

  lemma {:induction false} NoFirstSnoc(c: Crypto, s: Info, ops: seq<Op>, i: nat)
    requires i < |ops|
    ensures var n := |ops| - 1; NoFirstSince(c, s, ops, i) <==> NoFirstSince(c, s, ops[..n], i) && !ShowsFirst(c, s, ops, n)
  {
    var n := |ops| - 1;
    SameShows(c, s, ops, n);
    if NoFirstSince(c, s, ops[..n], i) && !ShowsFirst(c, s, ops, n) {
      forall j | i <= j < |ops|
        ensures !ShowsFirst(c, s, ops, j)
      {
        if j < n { assert !ShowsFirst(c, s, ops[..n], j); }
      }
    }
    if NoFirstSince(c, s, ops, i) {
      forall j | i <= j < n
        ensures !ShowsFirst(c, s, ops[..n], j)
      {
        assert !ShowsFirst(c, s, ops, j);
      }
    }
  }

  lemma {:induction false} FirstUseGoneSnoc(c: Crypto, s: Info, ops: seq<Op>)
    requires ops != []
    ensures var n := |ops| - 1;
            FirstUseGone(c, s, ops) <==> ShowsOther(c, s, ops, n) || (FirstUseGone(c, s, ops[..n]) && !ShowsFirst(c, s, ops, n))
  {
    var n := |ops| - 1;
    SameShows(c, s, ops, n);
    NoFirstSnoc(c, s, ops, 0);
    if FirstUseGone(c, s, ops) && !ShowsOther(c, s, ops, n) {
      if i :| 0 <= i < |ops| && ShowsOther(c, s, ops, i) && NoFirstSince(c, s, ops, i + 1) {
        NoFirstSnoc(c, s, ops, i + 1);
        assert ShowsOther(c, s, ops[..n], i);
      }
    }
    if ShowsOther(c, s, ops, n) {
      assert NoFirstSince(c, s, ops, n + 1);
    } else if !ShowsFirst(c, s, ops, n) {
      if i :| 0 <= i < n && ShowsOther(c, s, ops[..n], i) && NoFirstSince(c, s, ops[..n], i + 1) {
        NoFirstSnoc(c, s, ops, i + 1);
        assert ShowsOther(c, s, ops, i);
      }
    }
  }

  /** Trust on first use, over every run. */
  lemma {:induction false} FirstUseIff(c: Crypto, s: Info, ops: seq<Op>)
    ensures After(c, s, ops).userId == s.userId
    ensures After(c, s, ops).firstUse <==> !FirstUseGone(c, s, ops)
  {
    if ops == [] {
      assert NoFirstSince(c, s, ops, 0);
    } else {
      FirstUseIff(c, s, ops[..|ops| - 1]);
      FirstUseGoneSnoc(c, s, ops);
    }
  }

  /** No operation brings a master key with another public key. */
  ghost predicate OnlyBrings(s: Info, pub: Option<string>, op: Op) {
    && !op.ResetKeys?
    && (op.SetKeys? && op.given.master.Some? && op.given.master.value.userId == s.userId ==> op.given.master.value.PublicKey() == pub)
  }

  /** Trust on first use: it lasts for as long as the user shows no other master key, and ends
      with the first other one that is shown, accepted or not. */
  lemma {:induction false} FirstUseLasts(c: Crypto, s: Info, ops: seq<Op>, pub: Option<string>)
    requires s.firstUse && (s.keys.master.Some? ==> s.keys.Id(Master) == pub)
    requires forall op <- ops :: OnlyBrings(s, pub, op)
    ensures var s' := After(c, s, ops);
            && s'.firstUse && s'.userId == s.userId && (s'.keys.master.Some? ==> s'.keys.Id(Master) == pub)
            && forall other: KeyInfo, given: Keys ::
                 s'.keys.master.Some? && other.userId == s.userId && other.PublicKey() != pub && given.master == Some(other)
                 ==> !Step(c, s', Op.SetKeys(given)).firstUse
  {
    if ops != [] {
      FirstUseLasts(c, s, ops[..|ops| - 1], pub);
      assert OnlyBrings(s, pub, ops[|ops| - 1]);
    }
  }

  // ----- What a trusted device rests on

  /** The signer's key, under their user id, on an object. */
  datatype Certificate = Certificate(signer: string, signerKey: Option<string>, body: Body, signatures: Signatures) {
    predicate Holds(c: Crypto) {
      PkVerify(c, body, signatures, signerKey, signer)
    }

    /** Whether the object is a key of that user. */
    predicate Certifies(userId: string, key: Option<string>) {
      body.KeyBody? && body.userId == userId && body.keys != [] && key == Some(body.keys[0].1)
    }
  }

  /** Every certificate holds, and each is signed by the key that the one before it certifies. */
  ghost predicate IsTrustPath(c: Crypto, root: Option<string>, rootUser: string, path: seq<Certificate>, target: Body) {
    && path != [] && path[0].signerKey == root && path[0].signer == rootUser && path[|path| - 1].body == target
    && (forall i :: 0 <= i < |path| ==> path[i].Holds(c))
    && (forall i, j :: 0 <= i && j == i + 1 && j < |path| ==> path[i].Certifies(path[j].signer, path[j].signerKey))
  }

  /** The device is signed by the self-signing key, which is signed by the master key. */
  function OwnPath(them: Info, device: Device): seq<Certificate>
    requires them.keys.selfSigning.Some?
  {
    var ssk := them.keys.selfSigning.value;
    [Certificate(them.userId, them.keys.Id(Master), ssk.Body(), ssk.signatures),
     Certificate(them.userId, ssk.PublicKey(), device.Body(them.userId), device.signatures)]
  }

  /** From my master key over my user-signing key and their master key to their device. */
  function CrossPath(me: Info, them: Info, device: Device): seq<Certificate>
    requires me.keys.userSigning.Some? && them.keys.master.Some? && them.keys.selfSigning.Some?
  {
    var usk, master := me.keys.userSigning.value, them.keys.master.value;
    [Certificate(me.userId, me.keys.Id(Master), usk.Body(), usk.signatures),
     Certificate(me.userId, usk.PublicKey(), master.Body(), master.signatures)] + OwnPath(them, device)
  }

  /** An unbroken path of signatures from my master key over their self-signing key. */
  ghost predicate OwnChain(c: Crypto, me: Info, them: Info, device: Device) {
    && them.keys.selfSigning.Some?
    && IsTrustPath(c, me.keys.Id(Master), me.userId, OwnPath(them, device), device.Body(them.userId))
  }

  /** An unbroken path of signatures from my master key over my user-signing key. */
  ghost predicate CrossChain(c: Crypto, me: Info, them: Info, device: Device) {
    && me.keys.userSigning.Some? && them.keys.master.Some? && them.keys.selfSigning.Some?
    && IsTrustPath(c, me.keys.Id(Master), me.userId, CrossPath(me, them, device), device.Body(them.userId))
  }

  /** The self-signing key that I hold is theirs; my master key is not the empty string. */
  predicate HoldsSelfSigning(me: Info, them: Info) {
    && Truthy(me.keys.Id(Master))
    && Truthy(me.keys.Id(SelfSigning)) && me.keys.Id(SelfSigning) == them.keys.Id(SelfSigning)
  }

  lemma {:induction false} OwnPathIff(c: Crypto, them: Info, device: Device)
    requires Chained(c, them) && them.keys.selfSigning.Some?
    ensures IsTrustPath(c, them.keys.Id(Master), them.userId, OwnPath(them, device), device.Body(them.userId))
            <==> PkVerify(c, device.Body(them.userId), device.signatures, them.keys.Id(SelfSigning), them.userId)
  {
    var path := OwnPath(them, device);
    if PkVerify(c, device.Body(them.userId), device.signatures, them.keys.Id(SelfSigning), them.userId) {
      assert path[0].Holds(c) && path[1].Holds(c) && path[0].Certifies(path[1].signer, path[1].signerKey);
    } else {
      assert !path[1].Holds(c);
    }
  }

  lemma {:induction false} CrossPathIff(c: Crypto, me: Info, them: Info, device: Device)
    requires Chained(c, me) && Chained(c, them)
    requires me.keys.userSigning.Some? && them.keys.master.Some? && them.keys.selfSigning.Some?
    ensures IsTrustPath(c, me.keys.Id(Master), me.userId, CrossPath(me, them, device), device.Body(them.userId))
            <==> && them.keys.master.value.VerifiesUnder(c, me.keys.Id(UserSigning), me.userId)
                 && PkVerify(c, device.Body(them.userId), device.signatures, them.keys.Id(SelfSigning), them.userId)
  {
    var path := CrossPath(me, them, device);
    if && them.keys.master.value.VerifiesUnder(c, me.keys.Id(UserSigning), me.userId)
       && PkVerify(c, device.Body(them.userId), device.signatures, them.keys.Id(SelfSigning), them.userId)
    {
      assert path[0].Holds(c) && path[1].Holds(c) && path[2].Holds(c) && path[3].Holds(c);
      assert path[0].Certifies(path[1].signer, path[1].signerKey);
      assert path[1].Certifies(path[2].signer, path[2].signerKey);
      assert path[2].Certifies(path[3].signer, path[3].signerKey);
    } else {
      assert !path[1].Holds(c) || !path[3].Holds(c);
    }
  }

  lemma {:induction false} OwnChainIff(c: Crypto, me: Info, them: Info, device: Device)
    requires Chained(c, them)
    ensures OwnChain(c, me, them, device) <==>
            && them.keys.selfSigning.Some? && me.userId == them.userId && me.keys.Id(Master) == them.keys.Id(Master)
            && PkVerify(c, device.Body(them.userId), device.signatures, them.keys.Id(SelfSigning), them.userId)
  {
    if them.keys.selfSigning.Some? {
      OwnPathIff(c, them, device);
      assert OwnPath(them, device)[0].signer == them.userId && OwnPath(them, device)[0].signerKey == them.keys.Id(Master);
    }
  }

  /** A device that counts as cross-signing verified has an unbroken path of signatures from my own
      master key. Such a path makes it verified if it leads over my user-signing key; otherwise
      exactly when the self-signing key on it is the one that I hold myself. */
  lemma {:induction false} DeviceIsVerifiedIff(c: Crypto, me: Info, them: Info, device: Device, localTrust: bool, trustCrossSigned: bool)
    requires Chained(c, me) && Chained(c, them)
    ensures var verified := DeviceTrust(c, me, them, device, localTrust, trustCrossSigned).crossSigningVerified;
            && (verified ==> OwnChain(c, me, them, device) || CrossChain(c, me, them, device))
            && (OwnChain(c, me, them, device) || CrossChain(c, me, them, device) ==>
                  (verified <==> CrossChain(c, me, them, device) || HoldsSelfSigning(me, them)))
  {
    OwnChainIff(c, me, them, device);
    if me.keys.userSigning.Some? && them.keys.master.Some? && them.keys.selfSigning.Some? {
      CrossPathIff(c, me, them, device);
    }
  }

  /** In every state that the two users' keys can reach from their beginnings. */
  lemma {:induction false} ReachedDeviceIsVerifiedIff(c: Crypto, myId: string, myOps: seq<Op>, theirId: string, theirOps: seq<Op>,
                                                      device: Device, localTrust: bool, trustCrossSigned: bool)
    requires Sound(c)
    ensures var me := After(c, Info(myId, NO_KEYS, true, false), myOps);
            var them := After(c, Info(theirId, NO_KEYS, true, false), theirOps);
            var verified := DeviceTrust(c, me, them, device, localTrust, trustCrossSigned).crossSigningVerified;
            && (verified ==> OwnChain(c, me, them, device) || CrossChain(c, me, them, device))
            && (OwnChain(c, me, them, device) || CrossChain(c, me, them, device) ==>
                  (verified <==> CrossChain(c, me, them, device) || HoldsSelfSigning(me, them)))
  {
    var me, them := Info(myId, NO_KEYS, true, false), Info(theirId, NO_KEYS, true, false);
    RunKeepsChain(c, me, myOps);
    RunKeepsChain(c, them, theirOps);
    DeviceIsVerifiedIff(c, After(c, me, myOps), After(c, them, theirOps), device, localTrust, trustCrossSigned);
  }

  // Two copies of one user's keys, with the same master key and different self-signing keys.
  const ALICE := "@a:x"
  const TOY := Crypto((seed: string) => "p" + seed, (seed: string, b: Body) => "p" + seed, (pub: string, b: Body, sig: string) => sig == pub)
  const ALICE_MASTER := FreshKey(TOY, ALICE, "master", "m")
  const ALICE_DEVICE := DeviceSignedBy(TOY, Device("D", [], map[], map[]), "s2", ALICE)

  function AliceKeys(seed: string): Keys {
    Keys(Some(ALICE_MASTER), Some(FreshKey(TOY, ALICE, "self_signing", seed).SignedBy(TOY, "m", ALICE)), None)
  }

  function Alice(seed: string): Info {
    Info(ALICE, AliceKeys(seed), true, false)
  }

  lemma {:induction false} AliceIsReached(seed: string)
    ensures Sound(TOY)
    ensures After(TOY, Info(ALICE, NO_KEYS, true, false), [Op.SetKeys(AliceKeys(seed))]) == Alice(seed)
    ensures Chained(TOY, Alice(seed))
  {
    var start := Info(ALICE, NO_KEYS, true, false);
    var ssk := FreshKey(TOY, ALICE, "self_signing", seed);
    SignThenVerify(TOY, ssk.Body(), ssk.signatures, "m", ALICE, Some(TOY.publicOf("m")), ALICE);
    assert Acceptable(TOY, start, AliceKeys(seed));
    assert [Op.SetKeys(AliceKeys(seed))][..0] == [];
    assert After(TOY, start, []) == start;
  }

  /** One copy holds s1, the other s2, which signs the device: there is an unbroken path from the
      common master key, and yet the device is not verified. */
  lemma {:induction false} OtherSelfSigningKeyIsNotTrusted(localTrust: bool, trustCrossSigned: bool)
    ensures OwnChain(TOY, Alice("s1"), Alice("s2"), ALICE_DEVICE)
    ensures !DeviceTrust(TOY, Alice("s1"), Alice("s2"), ALICE_DEVICE, localTrust, trustCrossSigned).crossSigningVerified
  {
    AliceIsReached("s1");
    AliceIsReached("s2");
    SignThenVerify(TOY, Device("D", [], map[], map[]).Body(ALICE), map[], "s2", ALICE, Some(TOY.publicOf("s2")), ALICE);
    OwnChainIff(TOY, Alice("s1"), Alice("s2"), ALICE_DEVICE);
    assert ALICE_DEVICE.Body(ALICE) == Device("D", [], map[], map[]).Body(ALICE);
    assert Alice("s1").keys.Id(SelfSigning) == Some("p" + "s1") && Alice("s2").keys.Id(SelfSigning) == Some("p" + "s2");
    assert ("p" + "s1")[2] != ("p" + "s2")[2];
  }

  /** Clearing the keys disables cross-signing: nobody is verified any more, my own devices included. */
  lemma {:induction false} ClearingTrustsNobody(c: Crypto, me: Info, them: Info, device: Device, localTrust: bool, trustCrossSigned: bool)
    ensures var cleared := Step(c, me, Op.ClearKeys);
            && !UserTrust(c, cleared, them).crossSigningVerified
            && DeviceTrust(c, cleared, them, device, localTrust, trustCrossSigned).IsVerified() == localTrust
  {
  }

  // ----- Signing leads to trust

  /** Signing a master key with my user-signing key makes its user verified to me. */
  lemma {:induction false} SignedUserIsVerified(c: Crypto, me: Info, them: Info, seed: string)
    requires Sound(c) && me.keys.Id(UserSigning) == Some(c.publicOf(seed)) && them.keys.master.Some?
    ensures UserTrust(c, me, Step(c, them, MasterSigned(me.userId, seed))).crossSigningVerified
  {
    var master := them.keys.master.value;
    SignThenVerify(c, master.Body(), master.signatures, seed, me.userId, me.keys.Id(UserSigning), me.userId);
  }

  /** A device signed with a verified user's self-signing key is verified. */
  lemma {:induction false} SignedDeviceIsVerified(c: Crypto, me: Info, them: Info, device: Device, seed: string, localTrust: bool)
    requires Sound(c) && Chained(c, them) && UserTrust(c, me, them).crossSigningVerified
    requires them.keys.Id(SelfSigning) == Some(c.publicOf(seed))
    ensures DeviceTrust(c, me, them, DeviceSignedBy(c, device, seed, them.userId), localTrust, true).IsVerified()
  {
    SignThenVerify(c, device.Body(them.userId), map[], seed, them.userId, Some(c.publicOf(seed)), them.userId);
  }

  lemma {:induction false} ResetGives(c: Crypto, s: Info, seeds: Seeds, source: Source)
    ensures var keys := Step(c, s, Op.ResetKeys(true, None, seeds, source)).keys;
            && keys.Id(Master) == Some(c.publicOf(seeds.master))
            && keys.Id(SelfSigning) == Some(c.publicOf(seeds.selfSigning))
            && keys.Id(UserSigning) == Some(c.publicOf(seeds.userSigning))
  {
    assert HasBit(7, MASTER) && HasBit(7, SELF_SIGNING) && HasBit(7, USER_SIGNING);
  }

  /** From nothing to trust: after both users have reset their keys, I have signed their master key
      and they have signed their device, the device is verified. */
  lemma {:induction false} BootstrapLeadsToTrust(c: Crypto, me: Info, them: Info, seeds: Seeds, theirSeeds: Seeds, source: Source,
                                                 device: Device, localTrust: bool)
    requires Sound(c) && Chained(c, them)
    ensures var me' := Step(c, me, Op.ResetKeys(true, None, seeds, source));
            var them' := Step(c, Step(c, them, Op.ResetKeys(true, None, theirSeeds, source)), MasterSigned(me.userId, seeds.userSigning));
            var device' := DeviceSignedBy(c, device, theirSeeds.selfSigning, them.userId);
            && UserTrust(c, me', them').crossSigningVerified
            && DeviceTrust(c, me', them', device', localTrust, true).IsVerified()
  {
    var me' := Step(c, me, Op.ResetKeys(true, None, seeds, source));
    var reset := Step(c, them, Op.ResetKeys(true, None, theirSeeds, source));
    var them' := Step(c, reset, MasterSigned(me.userId, seeds.userSigning));
    ResetGives(c, me, seeds, source);
    ResetGives(c, them, theirSeeds, source);
    StepKeepsChain(c, them, Op.ResetKeys(true, None, theirSeeds, source));
    StepKeepsChain(c, reset, MasterSigned(me.userId, seeds.userSigning));
    SignedUserIsVerified(c, me', reset, seeds.userSigning);
    SignedDeviceIsVerified(c, me', them', device, theirSeeds.selfSigning, localTrust);
  }

  /** A signature by anybody takes no trust away, since the same key would only sign again. */
  lemma {:induction false} SigningKeepsTrust(c: Crypto, me: Info, them: Info, signer: string, seed: string)
    requires Sound(c) && UserTrust(c, me, them).crossSigningVerified
    ensures UserTrust(c, me, Step(c, them, MasterSigned(signer, seed))).crossSigningVerified
  {
    if them.keys.master.Some? {
      var master := them.keys.master.value;
      SignThenVerify(c, master.Body(), master.signatures, seed, signer, me.keys.Id(UserSigning), me.userId);
    }
  }
}
