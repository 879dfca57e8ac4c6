/** The provider credentials table: configurations kept in the clear or encrypted, and the separate
    webhook-secret column that leads from a secret back to its tenant. */
module Credentials {
  import opened Domain

  /** A provider configuration, and equally the flat JSON object stored for it. */
  type Config = map<string, string>

  /** AES-256-GCM under a fixed 32-byte key, over marshalled configurations; the number is the nonce. */
  datatype Cipher = Cipher(encrypt: (Config, nat) -> string, decrypt: string -> Option<Config>)

  /** Decryption undoes encryption, and a ciphertext is never empty. */
  ghost predicate Sound(c: Cipher) {
    forall m, n :: c.decrypt(c.encrypt(m, n)) == Some(m) && c.encrypt(m, n) != ""
  }

  /** The configured encryption key: none, one of 32 bytes, or one of another length. */
  datatype Key = NoKey | Aes256(cipher: Cipher) | WrongLength

  datatype Pair = Pair(tenant: string, providerName: string)

  datatype Row = Row(config: Config, secret: string)

  type Rows = map<Pair, Row>

  datatype Error = MissingTenant | InvalidInput | NotFound | SecretTaken | Unreadable

  datatype Result<+T> = Ok(value: T) | Err(error: Error)

  datatype Owner = Owner(pair: Pair, config: Config)

  const ENC := "_enc"
  const WEBHOOK_SECRET := "webhook_secret"
  const ACCESS_TOKEN := "access_token"
  const PROVIDERS := {"mercadopago", "stripe", "helipagos"}

  /** Indexing a Go map: an absent key reads as the empty string. */
  function Field(c: Config, name: string): string {
    if name in c then c[name] else ""
  }

  function Stored(key: Key, config: Config, nonce: nat): Config {
    if key.Aes256? then map[ENC := key.cipher.encrypt(config, nonce)] else config
  }

  /** Reading a stored object back: an encrypted one is recognised by its marker. */
  function Read(key: Key, stored: Config): Option<Config> {
    if Field(stored, ENC) == "" then Some(stored)
    else if key.Aes256? then key.cipher.decrypt(stored[ENC])
    else None
  }

  /** The unique index over the secret column. A configuration without a secret is stored with the empty
      one, which is a value like any other to the index. */
  predicate SecretFree(rows: Rows, pair: Pair, secret: string) {
    forall p <- rows :: p != pair ==> rows[p].secret != secret
  }

  function GetResult(rows: Rows, key: Key, pair: Pair): Result<Config> {
    if pair.tenant == "" then Err(MissingTenant)
    else if pair.providerName == "" then Err(InvalidInput)
    else if pair !in rows then Err(NotFound)
    else
      var c := Read(key, rows[pair].config);
      if c.Some? then Ok(c.value) else Err(Unreadable)
  }

  /** What Mercado Pago, the one provider the service registers, asks of a configuration before Set is
      called. */
  predicate Registrable(config: Config) {
    Field(config, ACCESS_TOKEN) != "" && Field(config, WEBHOOK_SECRET) != ""
  }

  /** What Set refuses, in the order it checks. */
  function SetError(rows: Rows, pair: Pair, config: Config): Option<Error> {
    if pair.tenant == "" then Some(MissingTenant)
    else if pair.providerName == "" || config == map[] || pair.providerName !in PROVIDERS then Some(InvalidInput)
    else if !SecretFree(rows, pair, Field(config, WEBHOOK_SECRET)) then Some(SecretTaken)
    else None
  }

  function DeleteError(rows: Rows, pair: Pair): Option<Error> {
    if pair.tenant == "" then Some(MissingTenant)
    else if pair.providerName == "" then Some(InvalidInput)
    else if pair !in rows then Some(NotFound)
    else None
  }

  // ----- Runs -----

  datatype Store = Store(rows: Rows, key: Key)

  datatype Op =
    | SetConfig(pair: Pair, config: Config, nonce: nat)
    | DeleteConfig(pair: Pair)
    | AddKey(cipher: Cipher)

  /** A refused Set or Delete changes nothing; AddKey is a restart that goes from no key to a 32-byte
      key and has no effect otherwise. */
  function Do(s: Store, op: Op): Store {
    match op
    case SetConfig(pair, config, nonce) =>
      if SetError(s.rows, pair, config).Some? then s
      else s.(rows := s.rows[pair := Row(Stored(s.key, config, nonce), Field(config, WEBHOOK_SECRET))])
    case DeleteConfig(pair) =>
      if DeleteError(s.rows, pair).Some? then s else s.(rows := s.rows - {pair})
    case AddKey(cipher) =>
      if s.key.NoKey? then s.(key := Aes256(cipher)) else s
  }

  function DoAll(s: Store, ops: seq<Op>): Store
    decreases |ops|
  {
    if ops == [] then s else DoAll(Do(s, ops[0]), ops[1..])
  }

  /** A Set that will be read back: encrypted, or free of the encryption marker. */
  predicate Unmarked(s: Store, op: Op) {
    op.SetConfig? && !s.key.Aes256? ==> Field(op.config, ENC) == ""
  }

  ghost predicate SoundKey(key: Key) {
    key.Aes256? ==> Sound(key.cipher)
  }

  ghost predicate CleanRun(s: Store, ops: seq<Op>)
    decreases |ops|
  {
    ops != [] ==>
      Unmarked(s, ops[0]) && (ops[0].AddKey? ==> Sound(ops[0].cipher)) && CleanRun(Do(s, ops[0]), ops[1..])
  }

  ghost predicate SecretsUnique(rows: Rows) {
    forall p, q :: p in rows && q in rows && rows[p].secret == rows[q].secret ==> p == q
  }

  /** Every row can be read, and its secret column holds the secret of what is read. */
  ghost predicate Consistent(s: Store) {
    && SoundKey(s.key)
    && forall p <- s.rows :: p.tenant != "" && p.providerName != ""
                             && Read(s.key, s.rows[p].config).Some?
                             && Field(Read(s.key, s.rows[p].config).value, WEBHOOK_SECRET) == s.rows[p].secret
                             && (!s.key.Aes256? ==> Field(s.rows[p].config, ENC) == "")
  }

  lemma StoredReadsBack(key: Key, config: Config, nonce: nat)
    requires SoundKey(key)
    ensures Read(key, Stored(key, config, nonce)) == Some(config) <==> key.Aes256? || Field(config, ENC) == ""
  {
  }

  /** With a key nothing but one ciphertext is stored, and without one the configuration itself. */
  lemma StoredShape(key: Key, config: Config, nonce: nat)
    ensures key.Aes256? ==> Stored(key, config, nonce) == map["_enc" := key.cipher.encrypt(config, nonce)]
    ensures !key.Aes256? ==> Stored(key, config, nonce) == config
  {
  }

  lemma DoKeepsConsistent(s: Store, op: Op)
    requires Consistent(s) && Unmarked(s, op) && (op.AddKey? ==> Sound(op.cipher))
    ensures Consistent(Do(s, op))
  {
    hide Sound;
    if op.SetConfig? {
      StoredReadsBack(s.key, op.config, op.nonce);
    }
  }

  lemma DoKeepsUnique(s: Store, op: Op)
    requires SecretsUnique(s.rows)
    ensures SecretsUnique(Do(s, op).rows)
  {
    hide Stored;
  }

  lemma {:induction false} RunsStayConsistent(s: Store, ops: seq<Op>)
    requires SecretsUnique(s.rows)
    ensures SecretsUnique(DoAll(s, ops).rows)
    ensures Consistent(s) && CleanRun(s, ops) ==> Consistent(DoAll(s, ops))
    decreases |ops|
  {
    hide Do, Consistent, SecretsUnique, Unmarked, Sound;
    if ops == [] {
    } else {
      DoKeepsUnique(s, ops[0]);
      if Consistent(s) && CleanRun(s, ops) {
        DoKeepsConsistent(s, ops[0]);
      }
      RunsStayConsistent(Do(s, ops[0]), ops[1..]);
    }
  }

  /** The owner of a pair's row, read as Get reads it. */
  function OwnerOf(rows: Rows, key: Key, pair: Pair): Result<Owner> {
    var r := GetResult(rows, key, pair);
    if r.Ok? then Ok(Owner(pair, r.value)) else Err(Unreadable)
  }

  /** What a lookup may answer: the owner of the row with that secret. */
  ghost predicate IsLookup(s: Store, secret: string, r: Result<Owner>) {
    if secret == "" then r == Err(InvalidInput)
    else if exists p :: p in s.rows && s.rows[p].secret == secret then
      exists p :: p in s.rows && s.rows[p].secret == secret
                  && r == OwnerOf(s.rows, s.key, p)
    else r == Err(NotFound)
  }

  /** After any run of Set and Delete, the move to a 32-byte key included, that keeps the marker out of
      plaintext configurations: looking up a non-empty secret answers a pair and a configuration exactly
      when Get of that pair answers that configuration and it holds that secret, and at most one pair
      does. */
  lemma LookupAgreesWithGet(s: Store, ops: seq<Op>, secret: string, r: Result<Owner>, owner: Owner)
    requires s.rows == map[] && SoundKey(s.key) && CleanRun(s, ops)
    requires secret != "" && IsLookup(DoAll(s, ops), secret, r)
    ensures r == Ok(owner) <==>
              GetResult(DoAll(s, ops).rows, DoAll(s, ops).key, owner.pair) == Ok(owner.config)
              && Field(owner.config, WEBHOOK_SECRET) == secret
  {
    hide DoAll, CleanRun, Sound, Read;
    RunsStayConsistent(s, ops);
  }

  // ----- What a run has stored -----

  /** Operation i is a Set of the pair that the repository accepts. */
  predicate AcceptedSet(s: Store, ops: seq<Op>, i: nat, pair: Pair) {
    i < |ops| && ops[i].SetConfig? && ops[i].pair == pair
    && SetError(DoAll(s, ops[..i]).rows, pair, ops[i].config) == None
  }

  /** Operation i is a Delete of the pair that the repository accepts. */
  predicate AcceptedDelete(s: Store, ops: seq<Op>, i: nat, pair: Pair) {
    i < |ops| && ops[i].DeleteConfig? && ops[i].pair == pair && DeleteError(DoAll(s, ops[..i]).rows, pair) == None
  }

  /** Operation i is the last accepted Set of the pair, and no accepted Delete of it follows. */
  ghost predicate Lives(s: Store, ops: seq<Op>, i: nat, pair: Pair) {
    AcceptedSet(s, ops, i, pair)
    && forall j: nat :: i < j < |ops| ==> !AcceptedSet(s, ops, j, pair) && !AcceptedDelete(s, ops, j, pair)
  }

  lemma {:induction false} DoAllSnoc(s: Store, ops: seq<Op>, op: Op)
    ensures DoAll(s, ops + [op]) == Do(DoAll(s, ops), op)
    decreases |ops|
  {
    hide Do;
    if ops == [] {
      assert [] + [op] == [op] && [op][1..] == [];
    } else {
      assert (ops + [op])[1..] == ops[1..] + [op];
      DoAllSnoc(Do(s, ops[0]), ops[1..], op);
    }
  }

  lemma {:induction false} CleanRunSnoc(s: Store, ops: seq<Op>, op: Op)
    requires CleanRun(s, ops + [op])
    ensures CleanRun(s, ops) && Unmarked(DoAll(s, ops), op) && (op.AddKey? ==> Sound(op.cipher))
    decreases |ops|
  {
    hide Do, Unmarked, Sound;
    if ops == [] {
      assert ([] + [op])[0] == op;
    } else {
      assert (ops + [op])[1..] == ops[1..] + [op];
      CleanRunSnoc(Do(s, ops[0]), ops[1..], op);
    }
  }

  lemma EarlierOpsSame(s: Store, ops: seq<Op>, op: Op, i: nat, pair: Pair)
    requires i < |ops|
    ensures AcceptedSet(s, ops + [op], i, pair) <==> AcceptedSet(s, ops, i, pair)
    ensures AcceptedDelete(s, ops + [op], i, pair) <==> AcceptedDelete(s, ops, i, pair)
  {
    hide DoAll, SetError, DeleteError;
    assert (ops + [op])[..i] == ops[..i] && (ops + [op])[i] == ops[i];
  }

  lemma LastOpAccepted(s: Store, ops: seq<Op>, op: Op, pair: Pair)
    ensures AcceptedSet(s, ops + [op], |ops|, pair)
            <==> op.SetConfig? && op.pair == pair && SetError(DoAll(s, ops).rows, pair, op.config) == None
    ensures AcceptedDelete(s, ops + [op], |ops|, pair)
            <==> op.DeleteConfig? && op.pair == pair && DeleteError(DoAll(s, ops).rows, pair) == None
  {
    hide DoAll, SetError, DeleteError;
    assert (ops + [op])[..|ops|] == ops && (ops + [op])[|ops|] == op;
  }

  /** A further operation leaves a live Set alive exactly if it is no accepted Set or Delete of the pair. */
  lemma LivesOn(s: Store, ops: seq<Op>, op: Op, i: nat, pair: Pair)
    requires i < |ops|
    ensures Lives(s, ops + [op], i, pair)
            <==> Lives(s, ops, i, pair) && !AcceptedSet(s, ops + [op], |ops|, pair)
                 && !AcceptedDelete(s, ops + [op], |ops|, pair)
  {
    hide AcceptedSet, AcceptedDelete;
    forall j: nat | j < |ops|
      ensures AcceptedSet(s, ops + [op], j, pair) <==> AcceptedSet(s, ops, j, pair)
      ensures AcceptedDelete(s, ops + [op], j, pair) <==> AcceptedDelete(s, ops, j, pair)
    {
      EarlierOpsSame(s, ops, op, j, pair);
    }
    if Lives(s, ops + [op], i, pair) {
      assert AcceptedSet(s, ops, i, pair);
      forall j: nat | i < j < |ops|
        ensures !AcceptedSet(s, ops, j, pair) && !AcceptedDelete(s, ops, j, pair)
      {
        EarlierOpsSame(s, ops, op, j, pair);
      }
    }
  }

  /** The row of a pair after one operation. */
  lemma RowAfter(s: Store, op: Op, pair: Pair)
    ensures var t := Do(s, op);
            if op.SetConfig? && op.pair == pair && SetError(s.rows, pair, op.config) == None then
              pair in t.rows && t.rows[pair].config == Stored(s.key, op.config, op.nonce) && t.key == s.key
            else if op.DeleteConfig? && op.pair == pair && DeleteError(s.rows, pair) == None then pair !in t.rows
            else (pair in t.rows <==> pair in s.rows) && (pair in s.rows ==> t.rows[pair] == s.rows[pair])
  {
    hide SecretFree, Stored;
  }

  /** A table after a run has a row for a pair exactly if some accepted Set of it lives. */
  lemma {:induction false} RowIffLives(s: Store, ops: seq<Op>, pair: Pair)
    requires s.rows == map[]
    ensures pair in DoAll(s, ops).rows <==> exists i: nat :: Lives(s, ops, i, pair)
    decreases |ops|
  {
    hide Do, SetError, DeleteError, Lives;
    if ops == [] {
      NoneLives(s, pair);
    } else {
      var n := |ops| - 1;
      var before, op := ops[..n], ops[n];
      assert ops == before + [op];
      RowIffLives(s, before, pair);
      DoAllSnoc(s, before, op);
      RowAfter(DoAll(s, before), op, pair);
      LastOpAccepted(s, before, op, pair);
      hide DoAll, AcceptedSet, AcceptedDelete;
      OnlyLastOrEarlier(s, before, op, pair);
    }
  }

  lemma NoneLives(s: Store, pair: Pair)
    ensures forall i: nat :: !Lives(s, [], i, pair)
  {
  }

  lemma OnlyLastOrEarlier(s: Store, before: seq<Op>, op: Op, pair: Pair)
    ensures (exists i: nat :: Lives(s, before + [op], i, pair))
            <==> AcceptedSet(s, before + [op], |before|, pair)
                 || ((exists i: nat :: Lives(s, before, i, pair)) && !AcceptedDelete(s, before + [op], |before|, pair))
  {
    hide AcceptedSet, AcceptedDelete, Lives;
    var n := |before|;
    if AcceptedSet(s, before + [op], n, pair) {
      LastLives(s, before, op, pair);
    } else if i: nat :| Lives(s, before + [op], i, pair) {
      if i >= n { LivesIsAccepted(s, before + [op], i, pair); } else { LivesOn(s, before, op, i, pair); }
    } else if i: nat :| Lives(s, before, i, pair) {
      LivesIsAccepted(s, before, i, pair);
      LivesOn(s, before, op, i, pair);
    }
  }

  lemma LastLives(s: Store, before: seq<Op>, op: Op, pair: Pair)
    requires AcceptedSet(s, before + [op], |before|, pair)
    ensures Lives(s, before + [op], |before|, pair)
  {
    hide AcceptedSet, AcceptedDelete;
  }

  lemma LivesIsAccepted(s: Store, ops: seq<Op>, i: nat, pair: Pair)
    requires Lives(s, ops, i, pair)
    ensures i < |ops| && AcceptedSet(s, ops, i, pair)
  {
    hide DoAll, SetError;
  }

  /** The row of a live Set reads as the configuration that was set, under whatever key the run has come to. */
  lemma {:induction false} LiveSetReads(s: Store, ops: seq<Op>, i: nat, pair: Pair)
    requires s.rows == map[] && SoundKey(s.key) && CleanRun(s, ops) && Lives(s, ops, i, pair)
    ensures var t := DoAll(s, ops);
            i < |ops| && ops[i].SetConfig? && pair in t.rows && Read(t.key, t.rows[pair].config) == Some(ops[i].config)
    decreases |ops|
  {
    hide Do, SetError, DeleteError, Lives, CleanRun, Sound, Read, Stored;
    LivesIsAccepted(s, ops, i, pair);
    var n := |ops| - 1;
    var before, op := ops[..n], ops[n];
    assert ops == before + [op];
    var u := DoAll(s, before);
    DoAllSnoc(s, before, op);
    RowAfter(u, op, pair);
    LastOpAccepted(s, before, op, pair);
    CleanRunSnoc(s, before, op);
    RunsStayConsistent(s, before);
    hide DoAll, AcceptedSet, AcceptedDelete;
    if i < n {
      LivesOn(s, before, op, i, pair);
      LiveSetReads(s, before, i, pair);
      KeyChangeKeepsReading(u, op, pair);
      assert before[i] == ops[i];
    } else {
      StoredReadsBack(u.key, op.config, op.nonce);
      CleanIsConsistent(s, before);
    }
  }

  lemma CleanIsConsistent(s: Store, before: seq<Op>)
    requires s.rows == map[] && SoundKey(s.key) && CleanRun(s, before)
    ensures Consistent(DoAll(s, before))
  {
    hide DoAll, CleanRun, Sound, Read;
    RunsStayConsistent(s, before);
  }

  lemma KeyChangeKeepsReading(u: Store, op: Op, pair: Pair)
    requires Consistent(u) && pair in u.rows
    ensures Read(Do(u, op).key, u.rows[pair].config) == Read(u.key, u.rows[pair].config)
  {
    hide Sound, SetError, DeleteError, Stored;
  }

  /** What Get answers after any run that keeps the marker out of plaintext configurations, the move to a key
      included: the configuration of the last accepted Set of the pair unless an accepted Delete of it follows,
      and that there is none if there is no such Set. Operations on other pairs play no part. */
  lemma GetAfterRun(s: Store, ops: seq<Op>, pair: Pair, config: Config)
    requires s.rows == map[] && SoundKey(s.key) && CleanRun(s, ops) && pair.tenant != "" && pair.providerName != ""
    ensures var t := DoAll(s, ops);
            && (GetResult(t.rows, t.key, pair) == Ok(config)
                <==> exists i: nat :: Lives(s, ops, i, pair) && ops[i].SetConfig? && ops[i].config == config)
            && (GetResult(t.rows, t.key, pair) == Err(NotFound) <==> forall i: nat :: !Lives(s, ops, i, pair))
  {
    hide DoAll, CleanRun, Sound, Read, Lives;
    RowIffLives(s, ops, pair);
    if i: nat :| Lives(s, ops, i, pair) {
      LiveSetReads(s, ops, i, pair);
      forall j: nat | Lives(s, ops, j, pair)
        ensures j < |ops| && ops[j].SetConfig? && ops[j].config == ops[i].config
      {
        LiveSetReads(s, ops, j, pair);
      }
    }
  }

  /** What Set refuses, and why. */
  lemma SetRefusedIff(rows: Rows, pair: Pair, config: Config)
    ensures SetError(rows, pair, config) == Some(MissingTenant) <==> pair.tenant == ""
    ensures SetError(rows, pair, config) == Some(InvalidInput)
            <==> pair.tenant != ""
                 && (config == map[] || pair.providerName !in {"mercadopago", "stripe", "helipagos"})
    ensures SetError(rows, pair, config) == Some(SecretTaken)
            <==> pair.tenant != "" && config != map[] && pair.providerName in {"mercadopago", "stripe", "helipagos"}
                 && exists p :: p in rows && p != pair
                                && rows[p].secret
                                   == (if "webhook_secret" in config then config["webhook_secret"] else "")
    ensures SetError(rows, pair, config) != Some(NotFound) && SetError(rows, pair, config) != Some(Unreadable)
  {
  }

  /** What Delete refuses, and why. */
  lemma DeleteRefusedIff(s: Store, ops: seq<Op>, pair: Pair)
    requires s.rows == map[]
    ensures DeleteError(DoAll(s, ops).rows, pair)
            == if pair.tenant == "" then Some(MissingTenant)
               else if pair.providerName == "" then Some(InvalidInput)
               else if exists i: nat :: Lives(s, ops, i, pair) then None
               else Some(NotFound)
  {
    hide DoAll, Lives;
    RowIffLives(s, ops, pair);
  }

  /** Looking up any non-empty secret agrees with Get. */
  ghost predicate LookupsAgree(s: Store) {
    forall secret, r, owner :: secret != "" && IsLookup(s, secret, r) ==>
      (r == Ok(owner) <==> HoldsSecret(s, owner, secret))
  }

  /** Get of the pair answers the configuration, and it holds the secret. */
  predicate HoldsSecret(s: Store, owner: Owner, secret: string) {
    GetResult(s.rows, s.key, owner.pair) == Ok(owner.config) && Field(owner.config, WEBHOOK_SECRET) == secret
  }

  /** What a row reads as holds the secret of the row's column, unless it cannot be read at all. */
  predicate ColumnTrue(s: Store, pair: Pair)
    requires pair in s.rows
  {
    var c := Read(s.key, s.rows[pair].config);
    c.Some? ==> Field(c.value, WEBHOOK_SECRET) == s.rows[pair].secret
  }

  lemma AnswerExists(s: Store, secret: string) returns (r: Result<Owner>)
    ensures IsLookup(s, secret, r)
    ensures secret != "" && SecretsUnique(s.rows) ==>
              (forall p <- s.rows :: s.rows[p].secret == secret ==> r == OwnerOf(s.rows, s.key, p))
              && ((forall p <- s.rows :: s.rows[p].secret != secret) ==> r == Err(NotFound))
  {
    hide OwnerOf;
    if secret == "" {
      r := Err(InvalidInput);
    } else if exists p :: p in s.rows && s.rows[p].secret == secret {
      var p :| p in s.rows && s.rows[p].secret == secret;
      r := OwnerOf(s.rows, s.key, p);
    } else {
      r := Err(NotFound);
    }
  }

  lemma DisagreementAtRow(s: Store, p: Pair)
    requires SecretsUnique(s.rows) && p in s.rows && p.tenant != "" && p.providerName != "" && !ColumnTrue(s, p)
    ensures !LookupsAgree(s)
  {
    hide Read, SecretsUnique;
    var config := Read(s.key, s.rows[p].config).value;
    var owner := Owner(p, config);
    var held := Field(config, WEBHOOK_SECRET);
    var secret := if s.rows[p].secret != "" then s.rows[p].secret else held;
    var r := AnswerExists(s, secret);
    assert HoldsSecret(s, owner, held);
    if r == Ok(owner) {
      assert s.rows[p].secret == secret;
      assert !HoldsSecret(s, owner, secret);
    } else {
      assert s.rows[p].secret != secret;
    }
  }

  /** Exactly which tables make every lookup agree with Get: those in which each readable row reads as a
      configuration with the secret of its column. */
  lemma LookupsAgreeIff(s: Store)
    requires SecretsUnique(s.rows) && forall p <- s.rows :: p.tenant != "" && p.providerName != ""
    ensures LookupsAgree(s) <==> forall p <- s.rows :: ColumnTrue(s, p)
  {
    hide Read;
    if p :| p in s.rows && !ColumnTrue(s, p) {
      DisagreementAtRow(s, p);
    }
  }

  /** The condition on the marker cannot be dropped: a plaintext configuration that uses the marker, once the
      key is added, is found under the secret of one configuration and read as another. The configuration is
      one that the service lets through. */
  lemma MarkedPlaintextMisleads(cipher: Cipher, other: Config, pair: Pair)
      returns (ops: seq<Op>, owner: Owner)
    requires Sound(cipher) && Field(other, WEBHOOK_SECRET) == "b"
    requires pair.tenant != "" && pair.providerName == "mercadopago"
    ensures ops != [] && ops[0].SetConfig? && Registrable(ops[0].config)
    ensures var s := DoAll(Store(map[], NoKey), ops);
            && IsLookup(s, "a", Ok(owner))
            && Field(owner.config, WEBHOOK_SECRET) != "a"
  {
    var config := map[ENC := cipher.encrypt(other, 0), WEBHOOK_SECRET := "a", ACCESS_TOKEN := "t"];
    var write := SetConfig(pair, config, 0);
    ops := [write, AddKey(cipher)];
    owner := Owner(pair, other);
    var s0 := Store(map[], NoKey);
    assert ENC in config && |ENC| != |WEBHOOK_SECRET| && |ENC| != |ACCESS_TOKEN| && |ACCESS_TOKEN| != |WEBHOOK_SECRET|;
    assert SetError(s0.rows, pair, config) == None;
    var s1 := Do(s0, write);
    var s2 := Do(s1, AddKey(cipher));
    assert ops[1..] == [AddKey(cipher)] && ops[1..][1..] == [];
    assert DoAll(s1, ops[1..]) == s2;
    assert s2.rows[pair].secret == "a";
    assert GetResult(s2.rows, s2.key, pair) == Ok(other);
  }

  /** An otherwise valid Set without a webhook secret is accepted exactly when no other pair goes without one:
      the index treats the empty secret like any other, so one pair in the whole table may. No configuration
      that is Registrable goes without one. */
  lemma SecretlessSetAcceptedIff(rows: Rows, pair: Pair, config: Config)
    requires pair.tenant != "" && pair.providerName in PROVIDERS && config != map[]
             && Field(config, WEBHOOK_SECRET) == ""
    ensures SetError(rows, pair, config) == None <==> forall p <- rows :: p != pair ==> rows[p].secret != ""
    ensures SetError(rows, pair, config) != None ==> SetError(rows, pair, config) == Some(SecretTaken)
  {
  }

  class CredentialsRepository {
    var rows: Rows
    const key: Key

    constructor (key: Key)
      ensures rows == map[] && this.key == key
    {
      rows := map[];
      this.key := key;
    }

    ghost function State(): Store
      reads this
    {
      Store(rows, key)
    }

    /** Insert or overwrite the pair's row. */
    method Set(pair: Pair, config: Config, nonce: nat) returns (r: Option<Error>)
      modifies this
      ensures State() == Do(old(State()), SetConfig(pair, config, nonce))
      ensures r == SetError(old(rows), pair, config)
    {
      if pair.tenant == "" {
        return Some(MissingTenant);
      }
      if pair.providerName == "" || config == map[] {
        return Some(InvalidInput);
      }
      var secret := Field(config, WEBHOOK_SECRET);
      var stored := config;
      if key.Aes256? {
        stored := map[ENC := key.cipher.encrypt(config, nonce)];
      }
      if pair.providerName !in PROVIDERS {
        return Some(InvalidInput);
      }
      if !SecretFree(rows, pair, secret) {
        return Some(SecretTaken);
      }
      rows := rows[pair := Row(stored, secret)];
      r := None;
    }

    method Get(pair: Pair) returns (r: Result<Config>)
      ensures r == GetResult(rows, key, pair)
    {
      if pair.tenant == "" {
        return Err(MissingTenant);
      }
      if pair.providerName == "" {
        return Err(InvalidInput);
      }
      if pair !in rows {
        return Err(NotFound);
      }
      var stored := rows[pair].config;
      if Field(stored, ENC) != "" {
        if !key.Aes256? {
          return Err(Unreadable);
        }
        var plain := key.cipher.decrypt(stored[ENC]);
        return if plain.Some? then Ok(plain.value) else Err(Unreadable);
      }
      r := Ok(stored);
    }

    method Delete(pair: Pair) returns (r: Option<Error>)
      modifies this
      ensures State() == Do(old(State()), DeleteConfig(pair))
      ensures r == DeleteError(old(rows), pair)
    {
      if pair.tenant == "" {
        return Some(MissingTenant);
      }
      if pair.providerName == "" {
        return Some(InvalidInput);
      }
      if pair !in rows {
        return Some(NotFound);
      }
      rows := rows - {pair};
      r := None;
    }

    /** From a secret to its owner, through the secret column. */
    method GetTenantByWebhookSecret(secret: string) returns (r: Result<Owner>)
      requires forall p <- rows :: p.tenant != "" && p.providerName != ""
      ensures IsLookup(State(), secret, r)
    {
      if secret == "" {
        return Err(InvalidInput);
      }
      if forall p <- rows :: rows[p].secret != secret {
        return Err(NotFound);
      }
      var p :| p in rows && rows[p].secret == secret;
      var c := Read(key, rows[p].config);
      r := if c.Some? then Ok(Owner(p, c.value)) else Err(Unreadable);
    }
  }
}
