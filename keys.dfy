/**
 * Key derivation and the authority records built from it (`generateAuth`).
 *
 * The steem-js primitives are foreign code: `auth.toWif` (a private key in
 * WIF form derived from a name, a password and a role) and
 * `auth.wifToPublic` are carried as two total functions in a
 * `KeyDerivation` value, so the model assumes only that they are
 * deterministic.  `auth.getPrivateKeys(name, password, [role])` is modelled
 * from those two as the object `{role: wif, rolePubkey: publicKey}`.
 */
module Keys {

  type PublicKey = string
  type Wif = string

  datatype Role = Owner | Active | Posting | Memo

  /** What `getPrivateKeys(name, password, [role])` returns for one role. */
  datatype KeySet = KeySet(role: Role, wif: Wif, publicKey: PublicKey)

  /**
   * The first argument of the derivation primitive.  The source passes an
   * account name everywhere except for the memo key of `account_create`,
   * where it passes the key object that an earlier derivation returned.
   */
  datatype Seed = AccountName(name: string) | KeyObject(keys: KeySet)

  datatype KeyDerivation = KeyDerivation(
    toWif: (Seed, string, Role) -> Wif,
    wifToPublic: Wif -> PublicKey)

  datatype KeyAuth = KeyAuth(key: PublicKey, weight: nat)

  datatype Authority = Authority(weightThreshold: nat, accountAuths: seq<string>, keyAuths: seq<KeyAuth>)

  /** `generateAuth` yields an authority for owner/active/posting and a bare key for memo. */
  datatype AuthOrKey = Auth(authority: Authority) | BareKey(key: PublicKey)

  /** The public key the primitives derive for a seed, a password and a role. */
  function DerivedPublicKey(kd: KeyDerivation, user: Seed, pass: string, role: Role): PublicKey {
    kd.wifToPublic(kd.toWif(user, pass, role))
  }

  function GetPrivateKeys(kd: KeyDerivation, user: Seed, pass: string, role: Role): KeySet {
    var wif := kd.toWif(user, pass, role);
    KeySet(role, wif, kd.wifToPublic(wif))
  }

  /** `Object.values(keys)[0]`: the private key, the first property written. */
  function FirstValue(ks: KeySet): Wif {
    ks.wif
  }

  /** A one-key authority: threshold 1, no account authorities, the key with weight 1. */
  predicate SingleSigner(a: Authority, key: PublicKey) {
    a.weightThreshold == 1 && a.accountAuths == [] && a.keyAuths == [KeyAuth(key, 1)]
  }

  function GenerateAuth(kd: KeyDerivation, user: Seed, pass: string, role: Role): (r: AuthOrKey)
    ensures r.BareKey? <==> role == Memo
    ensures r.BareKey? ==> r.key == DerivedPublicKey(kd, user, pass, role)
    ensures r.Auth? ==> SingleSigner(r.authority, DerivedPublicKey(kd, user, pass, role))
  {
    var keys := GetPrivateKeys(kd, user, pass, role);
    var publicKey := kd.wifToPublic(FirstValue(keys));
    if role == Memo then BareKey(publicKey)
    else Auth(Authority(1, [], [KeyAuth(publicKey, 1)]))
  }

  /** The total weight that a set of signing keys brings to a list of key authorities. */
  function SignedWeight(keyAuths: seq<KeyAuth>, signers: set<PublicKey>): nat {
    if keyAuths == [] then 0
    else (if keyAuths[0].key in signers then keyAuths[0].weight else 0) + SignedWeight(keyAuths[1..], signers)
  }

  /** Whether signatures by `signers` meet the authority's threshold through its keys. */
  predicate Satisfied(a: Authority, signers: set<PublicKey>) {
    SignedWeight(a.keyAuths, signers) >= a.weightThreshold
  }

  /**
   * The authority built for a non-memo role is met by a set of signing keys
   * exactly when that set holds the key derived for the role.
   */
  lemma {:induction false} GeneratedAuthoritySignedByItsKey(kd: KeyDerivation, user: Seed, pass: string, role: Role, signers: set<PublicKey>)
    requires role != Memo
    ensures Satisfied(GenerateAuth(kd, user, pass, role).authority, signers)
        <==> DerivedPublicKey(kd, user, pass, role) in signers
  {
    var key := DerivedPublicKey(kd, user, pass, role);
    var a := GenerateAuth(kd, user, pass, role).authority;
    assert a.keyAuths == [KeyAuth(key, 1)];
    assert SignedWeight(a.keyAuths, signers) == (if key in signers then 1 else 0) + SignedWeight([], signers);
  }
}
