/**
 * The operations the saga broadcasts: the `custom_json` operations that
 * carry Hivemind community commands (`generateHivemindOperation` and the
 * `setRole` / `updateProps` pair), and the `account_create` operation.
 */
module Operations {
  import opened Wrappers
  import opened Json
  import opened Keys

  /** The `id` under which Hivemind reads community commands. */
  const CommunityChannel := "community"

  /** The two community commands the second phase issues. */
  const SetRoleAction := "setRole"
  const UpdatePropsAction := "updateProps"

  /** The fee paid for the new account. */
  const AccountCreationFee := "3.000 STEEM"

  datatype CustomJson = CustomJson(
    requiredAuths: seq<string>,
    requiredPostingAuths: seq<string>,
    id: string,
    json: string)

  /** An operation as a `[name, body]` pair. */
  datatype TaggedOp = TaggedOp(name: string, body: CustomJson)

  /** What an indexer reads back out of a community `custom_json` operation. */
  datatype HivemindCall = HivemindCall(action: string, params: Json, actor: string)

  /**
   * `generateHivemindOperation(action, params, actor)`.  The source's calls
   * pass a fourth argument (the owner's posting keys) that it ignores; the
   * model takes only the three it reads.
   */
  function GenerateHivemindOperation(action: string, params: Json, actorName: string): (op: TaggedOp)
    ensures op.name == "custom_json"
    ensures op.body.requiredAuths == [] && op.body.requiredPostingAuths == [actorName]
    ensures op.body.id == CommunityChannel
  {
    TaggedOp("custom_json", CustomJson([], [actorName], CommunityChannel, Stringify(JArray([JString(action), params]))))
  }

  /** An indexer reads back exactly the command, parameters and issuer the operation was built from. */
  lemma HivemindRoundTrip(action: string, params: Json, actorName: string)
    ensures DecodeHivemindOperation(GenerateHivemindOperation(action, params, actorName))
         == Some(HivemindCall(action, params, actorName))
  {
    ParseStringify(JArray([JString(action), params]));
  }

  /** Reads a community command: one posting signer, channel `community`, JSON `[action, params]`. */
  function DecodeHivemindOperation(op: TaggedOp): Option<HivemindCall> {
    var body := op.body;
    if op.name != "custom_json" || body.id != CommunityChannel
       || body.requiredAuths != [] || |body.requiredPostingAuths| != 1
    then None
    else
      match Parse(body.json)
      case Some(JArray(xs)) =>
        if |xs| == 2 && xs[0].JString? then Some(HivemindCall(xs[0].str, xs[1], body.requiredPostingAuths[0]))
        else None
      case _ => None
  }

  /** Every operation a community command is read from is the one built for that command. */
  lemma DecodedOperationIsGenerated(op: TaggedOp)
    requires DecodeHivemindOperation(op).Some?
    ensures var c := DecodeHivemindOperation(op).value;
            op == GenerateHivemindOperation(c.action, c.params, c.actor)
  {
    var c := DecodeHivemindOperation(op).value;
    var j := Parse(op.body.json).value;
    StringifyParse(op.body.json);
    assert j.items == [j.items[0], j.items[1]];
    assert j == JArray([JString(c.action), c.params]);
  }

  /** The JavaScript values a caller may pass where a flag is expected. */
  datatype JsValue = Undefined | Null | Boolean(b: bool) | Number(n: int) | Str(s: string) | Object

  /** `!!v`: JavaScript truthiness. */
  function Truthy(v: JsValue): bool {
    match v
    case Undefined => false
    case Null => false
    case Boolean(b) => b
    case Number(n) => n != 0
    case Str(s) => s != ""
    case Object => true
  }

  function SetRoleParams(community: string, account: string): Json {
    JObject([Member("community", JString(community)), Member("account", JString(account)),
             Member("role", JString("admin"))])
  }

  function UpdatePropsParams(community: string, title: string, description: string, nsfw: JsValue): Json {
    JObject([Member("community", JString(community)),
             Member("props", JObject([Member("title", JString(title)), Member("description", JString(description)),
                                      Member("is_nsfw", JBool(Truthy(nsfw)))]))])
  }

  /** A named parameter of a command whose parameters are an object. */
  function Param(c: HivemindCall, key: string): Option<Json> {
    if c.params.JObject? then Lookup(c.params.members, key) else None
  }

  /** `c` makes `account` an admin of the community owned by `owner`, issued by `owner`. */
  predicate GrantsAdmin(c: HivemindCall, owner: string, account: string) {
    && c.action == SetRoleAction && c.actor == owner
    && Param(c, "community") == Some(JString(owner))
    && Param(c, "account") == Some(JString(account))
    && Param(c, "role") == Some(JString("admin"))
  }

  /** `c` sets the title, description and NSFW flag of `owner`'s community, issued by `owner`. */
  predicate SetsProps(c: HivemindCall, owner: string, title: string, description: string, nsfw: bool) {
    && c.action == UpdatePropsAction && c.actor == owner
    && Param(c, "community") == Some(JString(owner))
    && var props := Param(c, "props");
    && props.Some? && props.value.JObject?
    && Lookup(props.value.members, "title") == Some(JString(title))
    && Lookup(props.value.members, "description") == Some(JString(description))
    && Lookup(props.value.members, "is_nsfw") == Some(JBool(nsfw))
  }

  /** The batch broadcast in the second phase. */
  function HivemindBatch(owner: string, account: string, title: string, description: string, nsfw: JsValue): seq<TaggedOp> {
    [GenerateHivemindOperation(SetRoleAction, SetRoleParams(owner, account), owner),
     GenerateHivemindOperation(UpdatePropsAction, UpdatePropsParams(owner, title, description, nsfw), owner)]
  }

  /**
   * What an indexer reads from the batch: first `setRole` making `account`
   * an admin, then `updateProps` with the title, the description and the
   * NSFW flag coerced with `!!`, both issued by the community owner.
   */
  lemma HivemindBatchContents(owner: string, account: string, title: string, description: string, nsfw: JsValue)
    ensures var ops := HivemindBatch(owner, account, title, description, nsfw);
            && |ops| == 2
            && DecodeHivemindOperation(ops[0]).Some?
            && GrantsAdmin(DecodeHivemindOperation(ops[0]).value, owner, account)
            && DecodeHivemindOperation(ops[1]).Some?
            && SetsProps(DecodeHivemindOperation(ops[1]).value, owner, title, description, Truthy(nsfw))
  {
    HivemindRoundTrip(SetRoleAction, SetRoleParams(owner, account), owner);
    HivemindRoundTrip(UpdatePropsAction, UpdatePropsParams(owner, title, description, nsfw), owner);
    SetRoleParamsRead(owner, account);
    UpdatePropsParamsRead(owner, title, description, nsfw);
  }

  lemma SetRoleParamsRead(owner: string, account: string)
    ensures GrantsAdmin(HivemindCall(SetRoleAction, SetRoleParams(owner, account), owner), owner, account)
  {
    var members := SetRoleParams(owner, account).members;
    LookupFirst(members, "community", 0);
    LookupFirst(members, "account", 1);
    LookupFirst(members, "role", 2);
  }

  lemma UpdatePropsParamsRead(owner: string, title: string, description: string, nsfw: JsValue)
    ensures SetsProps(HivemindCall(UpdatePropsAction, UpdatePropsParams(owner, title, description, nsfw), owner),
                      owner, title, description, Truthy(nsfw))
  {
    var members := UpdatePropsParams(owner, title, description, nsfw).members;
    var props := members[1].value.members;
    LookupFirst(members, "community", 0);
    LookupFirst(members, "props", 1);
    LookupFirst(props, "title", 0);
    LookupFirst(props, "description", 1);
    LookupFirst(props, "is_nsfw", 2);
  }

  datatype AccountCreate = AccountCreate(
    fee: string,
    creator: string,
    newAccountName: string,
    owner: Authority,
    active: Authority,
    posting: Authority,
    memoKey: PublicKey,
    jsonMetadata: string)

  /**
   * The `account_create` operation of the first phase.  `ownerPosting` is the
   * key object derived earlier for the posting role; the memo key is derived
   * with that object, not the account name, as the first argument.
   */
  function AccountCreateOperation(kd: KeyDerivation, creator: string, newAccountName: string, pass: string, ownerPosting: KeySet): (op: AccountCreate)
    ensures op.fee == AccountCreationFee && op.creator == creator && op.newAccountName == newAccountName
    ensures op.jsonMetadata == ""
    ensures SingleSigner(op.owner, DerivedPublicKey(kd, AccountName(newAccountName), pass, Owner))
    ensures SingleSigner(op.active, DerivedPublicKey(kd, AccountName(newAccountName), pass, Active))
    ensures SingleSigner(op.posting, DerivedPublicKey(kd, AccountName(newAccountName), pass, Posting))
    ensures op.memoKey == DerivedPublicKey(kd, KeyObject(ownerPosting), pass, Memo)
  {
    var account := AccountName(newAccountName);
    AccountCreate(
      AccountCreationFee, creator, newAccountName,
      GenerateAuth(kd, account, pass, Owner).authority,
      GenerateAuth(kd, account, pass, Active).authority,
      GenerateAuth(kd, account, pass, Posting).authority,
      GenerateAuth(kd, KeyObject(ownerPosting), pass, Memo).key,
      "")
  }
}
