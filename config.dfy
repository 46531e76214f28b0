/**
 * The account registry (`ConfigManager`, binance_mcp/config.py): a table from
 * account id to a stored record whose `api_key` and `secret` are kept only as
 * cipher tokens, plus the server settings. Every mutation rewrites the whole
 * configuration file; the model keeps the last written snapshot in a ghost field.
 */
module Config {
  import opened Wrappers
  import opened Errors
  import opened Json
  import Cipher

  const ApiKeyField: string := "api_key"
  const SecretField: string := "secret"
  const SandboxField: string := "sandbox"
  const DescriptionField: string := "description"
  const CreatedAtField: string := "created_at"
  const UpdatedAtField: string := "updated_at"

  /** One stored account: a dict from field name to value. */
  type Record = map<string, Value>

  predicate IsSecret(field: string) {
    field == ApiKeyField || field == SecretField
  }

  /** The order of a Python dict's keys lists each key exactly once. */
  ghost predicate Ordered(order: seq<string>, accounts: map<string, Record>) {
    && (forall i, j :: 0 <= i < j < |order| ==> order[i] != order[j])
    && (forall id :: id in accounts <==> id in order)
  }

  /** The whole configuration file, as `_save_config` writes it. */
  datatype Snapshot = Snapshot(order: seq<string>, accounts: map<string, Record>, server: map<string, Value>)

  /** The server section of the default configuration (config.py:57-61). */
  function DefaultServer(): map<string, Value> {
    map["port" := Int(9001), "host" := Str("127.0.0.1"), "log_level" := Str("INFO")]
  }

  /** A secret as stored: the token of the plaintext. */
  function Seal(key: Cipher.Key, nonce: Cipher.Nonce, plaintext: string): (v: Value)
    ensures v.Str? && v != Str(plaintext)
    ensures Cipher.Decrypt(key, v.s) == Ok(plaintext)
  {
    Str(Cipher.Encrypt(key, nonce, plaintext))
  }

  /**
   * Reading one secret field back (config.py:147-148): a missing field raises
   * KeyError; a value that is not a token of `key` fails in `decrypt_value`.
   */
  function Unseal(key: Cipher.Key, rec: Record, field: string): (r: Result<string, Error>)
    ensures field !in rec <==> r == Err(KeyMissing(field))
    ensures r.Err? ==> r.error == KeyMissing(field) || r.error == DecryptFailed
    ensures r.Ok? ==> rec[field].Str? && Cipher.Decrypt(key, rec[field].s) == Ok(r.value)
    ensures field in rec && rec[field].Str? && Cipher.Decrypt(key, rec[field].s).Ok? ==> r.Ok?
  {
    if field !in rec then Err(KeyMissing(field))
    else if !rec[field].Str? then Err(DecryptFailed)
    else Cipher.Decrypt(key, rec[field].s)
  }

  /** The record `add_account` stores (config.py:115-121). */
  function NewRecord(key: Cipher.Key, keyNonce: Cipher.Nonce, secretNonce: Cipher.Nonce,
                     apiKey: string, secret: string, sandbox: bool, description: string,
                     now: string): (rec: Record)
    ensures rec.Keys == {ApiKeyField, SecretField, SandboxField, DescriptionField, CreatedAtField}
    ensures rec[ApiKeyField] != Str(apiKey) && rec[SecretField] != Str(secret)
    ensures Unseal(key, rec, ApiKeyField) == Ok(apiKey)
    ensures Unseal(key, rec, SecretField) == Ok(secret)
    ensures rec[SandboxField] == Bool(sandbox)
    ensures rec[DescriptionField] == Str(description)
    ensures rec[CreatedAtField] == Str(now)
  {
    map[ApiKeyField := Seal(key, keyNonce, apiKey),
        SecretField := Seal(key, secretNonce, secret),
        SandboxField := Bool(sandbox),
        DescriptionField := Str(description),
        CreatedAtField := Str(now)]
  }

  /** The fields of a record other than the two secrets. */
  function PublicFields(rec: Record): (pub: Record)
    ensures pub.Keys == set f | f in rec && !IsSecret(f)
    ensures forall f :: f in pub ==> pub[f] == rec[f]
  {
    map f | f in rec && !IsSecret(f) :: rec[f]
  }

  /**
   * What `get_account` returns (config.py:138-156): the decrypted key and secret
   * and every other stored field verbatim, including fields `add_account` never
   * writes.
   */
  function AccountView(key: Cipher.Key, accounts: map<string, Record>, id: string): (r: Result<Record, Error>)
    ensures id !in accounts ==> r == Err(AccountNotFound(id))
    ensures id in accounts && Unseal(key, accounts[id], ApiKeyField).Err? ==>
      r == Err(Unseal(key, accounts[id], ApiKeyField).error)
    ensures (id in accounts && Unseal(key, accounts[id], ApiKeyField).Ok?
             && Unseal(key, accounts[id], SecretField).Err?) ==>
      r == Err(Unseal(key, accounts[id], SecretField).error)
    ensures r.Ok? ==>
      && id in accounts
      && r.value.Keys == accounts[id].Keys
      && r.value[ApiKeyField] == Str(Unseal(key, accounts[id], ApiKeyField).value)
      && r.value[SecretField] == Str(Unseal(key, accounts[id], SecretField).value)
      && (forall f :: f in accounts[id] && !IsSecret(f) ==> r.value[f] == accounts[id][f])
    ensures (id in accounts && Unseal(key, accounts[id], ApiKeyField).Ok?
             && Unseal(key, accounts[id], SecretField).Ok?) ==> r.Ok?
  {
    if id !in accounts then Err(AccountNotFound(id))
    else
      var rec := accounts[id];
      match Unseal(key, rec, ApiKeyField)
      case Err(e) => Err(e)
      case Ok(apiKey) =>
        match Unseal(key, rec, SecretField)
        case Err(e) => Err(e)
        case Ok(secret) => Ok(PublicFields(rec)[ApiKeyField := Str(apiKey)][SecretField := Str(secret)])
  }

  /** One entry of `list_accounts` (config.py:162-166). */
  function PublicEntry(rec: Record): (r: Result<Record, Error>)
    ensures r.Ok? <==> SandboxField in rec
    ensures r.Err? ==> r.error == KeyMissing(SandboxField)
    ensures r.Ok? ==> r.value.Keys == {DescriptionField, SandboxField, CreatedAtField}
    ensures r.Ok? ==> ApiKeyField !in r.value && SecretField !in r.value
    ensures r.Ok? ==> r.value[SandboxField] == rec[SandboxField]
    ensures r.Ok? ==> r.value[DescriptionField] == if DescriptionField in rec then rec[DescriptionField] else Str("")
    ensures r.Ok? ==> r.value[CreatedAtField] == if CreatedAtField in rec then rec[CreatedAtField] else Str("")
  {
    if SandboxField !in rec then Err(KeyMissing(SandboxField))
    else
      var description := if DescriptionField in rec then rec[DescriptionField] else Str("");
      var created := if CreatedAtField in rec then rec[CreatedAtField] else Str("");
      Ok(map[DescriptionField := description, SandboxField := rec[SandboxField], CreatedAtField := created])
  }

  /** `list_accounts` (config.py:158-167), as (id, public entry) pairs in table order. */
  function Listing(order: seq<string>, accounts: map<string, Record>): (r: Result<seq<(string, Record)>, Error>)
    requires forall i :: 0 <= i < |order| ==> order[i] in accounts
    ensures r.Err? ==> r.error == KeyMissing(SandboxField)
    ensures r.Ok? <==> forall i :: 0 <= i < |order| ==> SandboxField in accounts[order[i]]
    ensures r.Ok? ==> |r.value| == |order|
    ensures r.Ok? ==> forall i :: 0 <= i < |order| ==>
      r.value[i].0 == order[i] && PublicEntry(accounts[order[i]]) == Ok(r.value[i].1)
  {
    if order == [] then Ok([])
    else
      var last := order[|order| - 1];
      match Listing(order[..|order| - 1], accounts)
      case Err(e) => Err(e)
      case Ok(front) =>
        match PublicEntry(accounts[last])
        case Err(e) => Err(e)
        case Ok(entry) => Ok(front + [(last, entry)])
  }

  /** `validate_account` (config.py:275-282): every failure becomes `false`. */
  function Usable(key: Cipher.Key, accounts: map<string, Record>, id: string): (ok: bool)
    ensures ok <==>
      && id in accounts
      && Unseal(key, accounts[id], ApiKeyField).Ok? && Unseal(key, accounts[id], ApiKeyField).value != ""
      && Unseal(key, accounts[id], SecretField).Ok? && Unseal(key, accounts[id], SecretField).value != ""
  {
    match AccountView(key, accounts, id)
    case Err(_) => false
    case Ok(view) =>
      Truthy(if ApiKeyField in view then view[ApiKeyField] else Null)
      && Truthy(if SecretField in view then view[SecretField] else Null)
  }

  /** The record after `update_account` (config.py:181-192). */
  function Updated(key: Cipher.Key, rec: Record, apiKey: Option<string>, secret: Option<string>,
                   sandbox: Option<bool>, description: Option<string>, now: string,
                   keyNonce: Cipher.Nonce, secretNonce: Cipher.Nonce): (r: Record)
    ensures r.Keys == rec.Keys + {UpdatedAtField}
      + (if apiKey.Some? then {ApiKeyField} else {}) + (if secret.Some? then {SecretField} else {})
      + (if sandbox.Some? then {SandboxField} else {}) + (if description.Some? then {DescriptionField} else {})
    ensures r[UpdatedAtField] == Str(now)
    ensures apiKey.Some? ==> Unseal(key, r, ApiKeyField) == Ok(apiKey.value)
    ensures secret.Some? ==> Unseal(key, r, SecretField) == Ok(secret.value)
    ensures sandbox.Some? ==> r[SandboxField] == Bool(sandbox.value)
    ensures description.Some? ==> r[DescriptionField] == Str(description.value)
    ensures apiKey.None? && ApiKeyField in rec ==> r[ApiKeyField] == rec[ApiKeyField]
    ensures secret.None? && SecretField in rec ==> r[SecretField] == rec[SecretField]
    ensures sandbox.None? && SandboxField in rec ==> r[SandboxField] == rec[SandboxField]
    ensures description.None? && DescriptionField in rec ==> r[DescriptionField] == rec[DescriptionField]
    ensures forall f :: (f in rec && f != UpdatedAtField && !IsSecret(f) && f != SandboxField
                         && f != DescriptionField) ==> r[f] == rec[f]
  {
    var r := if apiKey.Some? then rec[ApiKeyField := Seal(key, keyNonce, apiKey.value)] else rec;
    var r := if secret.Some? then r[SecretField := Seal(key, secretNonce, secret.value)] else r;
    var r := if sandbox.Some? then r[SandboxField := Bool(sandbox.value)] else r;
    var r := if description.Some? then r[DescriptionField := Str(description.value)] else r;
    r[UpdatedAtField := Str(now)]
  }

  /** The table with one id taken out of the key order. */
  function Without(order: seq<string>, id: string): (r: seq<string>)
    ensures forall x :: x in r <==> x in order && x != id
    ensures |r| <= |order|
  {
    if order == [] then []
    else if order[0] == id then Without(order[1..], id)
    else [order[0]] + Without(order[1..], id)
  }

  lemma {:induction false} WithoutKeepsDistinct(order: seq<string>, id: string)
    requires forall i, j :: 0 <= i < j < |order| ==> order[i] != order[j]
    ensures forall i, j :: 0 <= i < j < |Without(order, id)| ==> Without(order, id)[i] != Without(order, id)[j]
  {
    if order != [] {
      WithoutKeepsDistinct(order[1..], id);
      var rest := Without(order[1..], id);
      assert order[0] !in order[1..];
      assert order[0] !in rest;
      if order[0] != id {
        var r := [order[0]] + rest;
        assert r == Without(order, id);
        forall i, j | 0 <= i < j < |r|
          ensures r[i] != r[j]
        {
          if i == 0 {
            assert r[j] == rest[j - 1] && rest[j - 1] in rest;
          } else {
            assert r[i] == rest[i - 1] && r[j] == rest[j - 1];
          }
        }
      }
    }
  }

  /**
   * Deleting an id keeps the other ids in their insertion order, so the first
   * remaining account is the first one that was not removed.
   */
  lemma {:induction false} WithoutKeepsOrder(order: seq<string>, id: string, i: nat, j: nat)
    requires i < j < |order| && order[i] != id && order[j] != id
    ensures exists a, b ::
      0 <= a < b < |Without(order, id)| && Without(order, id)[a] == order[i] && Without(order, id)[b] == order[j]
  {
    var rest := Without(order[1..], id);
    if order[0] == id {
      WithoutKeepsOrder(order[1..], id, i - 1, j - 1);
      assert Without(order, id) == rest;
      assert order[1..][i - 1] == order[i] && order[1..][j - 1] == order[j];
    } else {
      var r := Without(order, id);
      assert r == [order[0]] + rest;
      if i == 0 {
        assert order[j] == order[1..][j - 1];
        assert order[j] in rest;
        var b' :| 0 <= b' < |rest| && rest[b'] == order[j];
        assert r[0] == order[i] && r[b' + 1] == order[j];
      } else {
        WithoutKeepsOrder(order[1..], id, i - 1, j - 1);
        var a', b' :| 0 <= a' < b' < |rest| && rest[a'] == order[1..][i - 1] && rest[b'] == order[1..][j - 1];
        assert r[a' + 1] == order[i] && r[b' + 1] == order[j];
      }
    }
  }

  class ConfigManager {
    const key: Cipher.Key
    var order: seq<string>                 // the account ids, in insertion order
    var accounts: map<string, Record>      // _config["accounts"]
    var server: map<string, Value>         // _config["server"]
    ghost var persisted: Snapshot          // the configuration file's content

    function Current(): Snapshot
      reads this
    {
      Snapshot(order, accounts, server)
    }

    /** The table's key order is consistent, and the file holds the in-memory state. */
    ghost predicate Valid()
      reads this
    {
      Ordered(order, accounts) && persisted == Current()
    }

    /**
     * `__init__` (config.py:21-34) given the key and the file's content, if any;
     * without a file the default configuration is created and written.
     */
    constructor (key: Cipher.Key, stored: Option<Snapshot>)
      requires stored.Some? ==> Ordered(stored.value.order, stored.value.accounts)
      ensures Valid() && this.key == key
      ensures stored.None? ==> Current() == Snapshot([], map[], DefaultServer())
      ensures stored.Some? ==> Current() == stored.value
    {
      this.key := key;
      if stored.None? {
        order, accounts, server := [], map[], DefaultServer();
      } else {
        order, accounts, server := stored.value.order, stored.value.accounts, stored.value.server;
      }
      persisted := Snapshot(order, accounts, server);
    }

    /** `add_account` (config.py:102-126). */
    method AddAccount(id: string, apiKey: string, secret: string, sandbox: bool, description: string,
                      now: string, keyNonce: Cipher.Nonce, secretNonce: Cipher.Nonce) returns (r: Outcome<Error>)
      requires Valid()
      modifies this
      ensures Valid()
      ensures id in old(accounts) ==> r == Fail(AccountExists(id)) && Current() == old(Current())
      ensures id !in old(accounts) ==>
        && r == Pass
        && accounts == old(accounts)[id := NewRecord(key, keyNonce, secretNonce, apiKey, secret, sandbox, description, now)]
        && order == old(order) + [id] && server == old(server)
    {
      if id in accounts {
        return Fail(AccountExists(id));
      }
      var record := NewRecord(key, keyNonce, secretNonce, apiKey, secret, sandbox, description, now);
      accounts := accounts[id := record];
      order := order + [id];
      persisted := Current();
      r := Pass;
    }

    /** `remove_account` (config.py:128-136). */
    method RemoveAccount(id: string) returns (r: Outcome<Error>)
      requires Valid()
      modifies this
      ensures Valid()
      ensures id !in old(accounts) ==> r == Fail(AccountNotFound(id)) && Current() == old(Current())
      ensures id in old(accounts) ==>
        && r == Pass
        && accounts == old(accounts) - {id} && order == Without(old(order), id) && server == old(server)
    {
      if id !in accounts {
        return Fail(AccountNotFound(id));
      }
      WithoutKeepsDistinct(order, id);
      accounts := accounts - {id};
      order := Without(order, id);
      persisted := Current();
      r := Pass;
    }

    /** `get_account` (config.py:138-156): decrypt the secrets, then copy the other fields one by one. */
    method GetAccount(id: string) returns (r: Result<Record, Error>)
      ensures r == AccountView(key, accounts, id)
    {
      if id !in accounts {
        return Err(AccountNotFound(id));
      }
      var stored := accounts[id];
      var apiKey := Unseal(key, stored, ApiKeyField);
      if apiKey.Err? {
        return Err(apiKey.error);
      }
      var secret := Unseal(key, stored, SecretField);
      if secret.Err? {
        return Err(secret.error);
      }
      var view: Record := map[ApiKeyField := Str(apiKey.value), SecretField := Str(secret.value)];
      var pending := stored.Keys;
      while pending != {}
        invariant pending <= stored.Keys
        invariant view.Keys == (stored.Keys - pending) + {ApiKeyField, SecretField}
        invariant view[ApiKeyField] == Str(apiKey.value) && view[SecretField] == Str(secret.value)
        invariant forall f :: f in stored && f !in pending && !IsSecret(f) ==> view[f] == stored[f]
        decreases pending
      {
        var f :| f in pending;
        if !IsSecret(f) {
          view := view[f := stored[f]];
        }
        pending := pending - {f};
      }
      assert view == PublicFields(stored)[ApiKeyField := Str(apiKey.value)][SecretField := Str(secret.value)];
      r := Ok(view);
    }

    /** `list_accounts` (config.py:158-167): one public entry per account, in table order. */
    method ListAccounts() returns (r: Result<seq<(string, Record)>, Error>)
      requires Valid()
      ensures r == Listing(order, accounts)
    {
      var listed: seq<(string, Record)> := [];
      var i := 0;
      while i < |order|
        invariant 0 <= i <= |order|
        invariant Listing(order[..i], accounts) == Ok(listed)
      {
        assert order[..i + 1][..i] == order[..i];
        var entry := PublicEntry(accounts[order[i]]);
        if entry.Err? {
          return Err(entry.error);
        }
        listed := listed + [(order[i], entry.value)];
        i := i + 1;
      }
      assert order[..i] == order;
      r := Ok(listed);
    }

    /** `update_account` (config.py:169-195): only the supplied fields change. */
    method UpdateAccount(id: string, apiKey: Option<string>, secret: Option<string>, sandbox: Option<bool>,
                         description: Option<string>, now: string,
                         keyNonce: Cipher.Nonce, secretNonce: Cipher.Nonce) returns (r: Outcome<Error>)
      requires Valid()
      modifies this
      ensures Valid()
      ensures id !in old(accounts) ==> r == Fail(AccountNotFound(id)) && Current() == old(Current())
      ensures id in old(accounts) ==>
        && r == Pass
        && accounts == old(accounts)[id := Updated(key, old(accounts)[id], apiKey, secret, sandbox,
                                                   description, now, keyNonce, secretNonce)]
        && order == old(order) && server == old(server)
    {
      if id !in accounts {
        return Fail(AccountNotFound(id));
      }
      var account := accounts[id];
      if apiKey.Some? {
        account := account[ApiKeyField := Seal(key, keyNonce, apiKey.value)];
      }
      if secret.Some? {
        account := account[SecretField := Seal(key, secretNonce, secret.value)];
      }
      if sandbox.Some? {
        account := account[SandboxField := Bool(sandbox.value)];
      }
      if description.Some? {
        account := account[DescriptionField := Str(description.value)];
      }
      account := account[UpdatedAtField := Str(now)];
      accounts := accounts[id := account];
      persisted := Current();
      r := Pass;
    }

    /** `update_server_config` (config.py:201-205): the given settings override the old ones. */
    method UpdateServerConfig(settings: map<string, Value>)
      requires Valid()
      modifies this
      ensures Valid()
      ensures server == old(server) + settings
      ensures order == old(order) && accounts == old(accounts)
    {
      server := server + settings;
      persisted := Current();
    }

    /** `validate_account` (config.py:275-282). */
    function ValidateAccount(id: string): (ok: bool)
      reads this
      ensures ok <==> Usable(key, accounts, id)
    {
      Usable(key, accounts, id)
    }
  }

  /** After `add_account`, `get_account` gives back the key, secret, sandbox flag and description. */
  lemma AddThenGet(key: Cipher.Key, accounts: map<string, Record>, id: string,
                   keyNonce: Cipher.Nonce, secretNonce: Cipher.Nonce, apiKey: string, secret: string,
                   sandbox: bool, description: string, now: string)
    ensures var after := accounts[id := NewRecord(key, keyNonce, secretNonce, apiKey, secret, sandbox, description, now)];
      var view := AccountView(key, after, id);
      view.Ok? && view.value[ApiKeyField] == Str(apiKey) && view.value[SecretField] == Str(secret)
      && view.value[SandboxField] == Bool(sandbox) && view.value[DescriptionField] == Str(description)
      && view.value[CreatedAtField] == Str(now)
  {
    var rec := NewRecord(key, keyNonce, secretNonce, apiKey, secret, sandbox, description, now);
    var after := accounts[id := rec];
    assert after[id] == rec;
    assert !IsSecret(SandboxField) && !IsSecret(DescriptionField) && !IsSecret(CreatedAtField);
  }

  /** Adding or updating one account leaves every other account's view as it was. */
  lemma OtherViewsUnchanged(key: Cipher.Key, accounts: map<string, Record>, id: string, rec: Record, other: string)
    requires other != id
    ensures AccountView(key, accounts[id := rec], other) == AccountView(key, accounts, other)
  {
    assert other in accounts[id := rec] <==> other in accounts;
    if other in accounts {
      assert accounts[id := rec][other] == accounts[other];
    }
  }

  /** After `remove_account`, `get_account` of that id fails and every other view is unchanged. */
  lemma RemoveThenGet(key: Cipher.Key, accounts: map<string, Record>, id: string, other: string)
    ensures AccountView(key, accounts - {id}, id) == Err(AccountNotFound(id))
    ensures other != id ==> AccountView(key, accounts - {id}, other) == AccountView(key, accounts, other)
  {
    if other != id && other in accounts {
      assert (accounts - {id})[other] == accounts[other];
    }
  }

  /**
   * After `update_account`, `get_account` shows the supplied values and, for every
   * field not supplied, what it showed before.
   */
  lemma UpdateThenGet(key: Cipher.Key, accounts: map<string, Record>, id: string,
                      apiKey: Option<string>, secret: Option<string>, sandbox: Option<bool>,
                      description: Option<string>, now: string,
                      keyNonce: Cipher.Nonce, secretNonce: Cipher.Nonce)
    requires AccountView(key, accounts, id).Ok?
    ensures var before := AccountView(key, accounts, id).value;
      var after := AccountView(key, accounts[id := Updated(key, accounts[id], apiKey, secret, sandbox,
                                                          description, now, keyNonce, secretNonce)], id);
      && after.Ok?
      && after.value[ApiKeyField] == (if apiKey.Some? then Str(apiKey.value) else before[ApiKeyField])
      && after.value[SecretField] == (if secret.Some? then Str(secret.value) else before[SecretField])
      && (sandbox.Some? ==> after.value[SandboxField] == Bool(sandbox.value))
      && (sandbox.None? && SandboxField in before ==> after.value[SandboxField] == before[SandboxField])
      && (description.Some? ==> after.value[DescriptionField] == Str(description.value))
      && (description.None? && DescriptionField in before ==> after.value[DescriptionField] == before[DescriptionField])
      && after.value[UpdatedAtField] == Str(now)
      && (forall f :: f in before ==> f in after.value)
      && forall f :: (f in before && !IsSecret(f) && f != UpdatedAtField && f != SandboxField
                      && f != DescriptionField) ==> after.value[f] == before[f]
  {
    var rec := accounts[id];
    var upd := Updated(key, rec, apiKey, secret, sandbox, description, now, keyNonce, secretNonce);
    var after := accounts[id := upd];
    assert after[id] == upd;
    assert Unseal(key, rec, ApiKeyField).Ok? && Unseal(key, rec, SecretField).Ok?;
    assert apiKey.None? ==> Unseal(key, upd, ApiKeyField) == Unseal(key, rec, ApiKeyField);
    assert secret.None? ==> Unseal(key, upd, SecretField) == Unseal(key, rec, SecretField);
    assert !IsSecret(SandboxField) && !IsSecret(UpdatedAtField) && !IsSecret(DescriptionField);
  }

  /** A freshly added account validates exactly when its key and secret are non-empty. */
  lemma AddedAccountUsable(key: Cipher.Key, accounts: map<string, Record>, id: string,
                           keyNonce: Cipher.Nonce, secretNonce: Cipher.Nonce, apiKey: string, secret: string,
                           sandbox: bool, description: string, now: string)
    ensures Usable(key, accounts[id := NewRecord(key, keyNonce, secretNonce, apiKey, secret, sandbox, description, now)], id)
      <==> apiKey != "" && secret != ""
  {
    var rec := NewRecord(key, keyNonce, secretNonce, apiKey, secret, sandbox, description, now);
    assert accounts[id := rec][id] == rec;
  }

  /** The listing has exactly the table's ids and never shows a secret. */
  lemma ListingHidesSecrets(order: seq<string>, accounts: map<string, Record>)
    requires Ordered(order, accounts)
    requires Listing(order, accounts).Ok?
    ensures var l := Listing(order, accounts).value;
      && (forall id :: id in accounts <==> exists i :: 0 <= i < |l| && l[i].0 == id)
      && (forall i :: 0 <= i < |l| ==> ApiKeyField !in l[i].1 && SecretField !in l[i].1)
  {
    var l := Listing(order, accounts).value;
    forall id | id in accounts
      ensures exists i :: 0 <= i < |l| && l[i].0 == id
    {
      var i :| 0 <= i < |order| && order[i] == id;
      assert l[i].0 == id;
    }
  }
}
