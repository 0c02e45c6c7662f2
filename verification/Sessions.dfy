/** The session store: a map from tokens to sessions, searched by session ID with a scan.  The
    token of a session is an abstract injective function of it. */
module Sessions {
  import opened Basics

  datatype TokenInfo = TokenInfo(id: string, username: string)

  type Store = map<string, TokenInfo>

  ghost predicate Injective(generate: TokenInfo -> string) {
    forall a, b :: generate(a) == generate(b) ==> a == b
  }

  /** Every key is the token of its value. */
  predicate Keyed(store: Store, generate: TokenInfo -> string) {
    forall t :: t in store ==> generate(store[t]) == t
  }

  /** What a scan may return, whatever the order in which it meets the entries. */
  predicate ScanResult(store: Store, id: string, r: Option<TokenInfo>) {
    if r.None? then forall t :: t in store ==> store[t].id != id
    else r.value.id == id && exists t :: t in store && store[t] == r.value
  }

  class TokenStore {
    const generate: TokenInfo -> string
    var store: Store

    constructor (generate: TokenInfo -> string)
      ensures this.generate == generate && store == map[]
    {
      this.generate := generate;
      store := map[];
    }

    method AddToken(info: TokenInfo) returns (token: string)
      requires Keyed(store, generate)
      modifies this
      ensures token == generate(info) && store == old(store)[token := info]
      ensures Keyed(store, generate)
    {
      token := generate(info);
      store := store[token := info];
    }

    method GetToken(token: string) returns (info: Option<TokenInfo>)
      requires Keyed(store, generate)
      ensures info == Get(store, token)
      ensures info.Some? ==> generate(info.value) == token
    {
      info := if token in store then Some(store[token]) else None;
    }

    method RemoveToken(token: string)
      requires Keyed(store, generate)
      modifies this
      ensures store == old(store) - {token}
      ensures Keyed(store, generate)
    {
      store := store - {token};
    }

    /** The map is met in no particular order. */
    method GetTokenFromSessionID(id: string) returns (info: Option<TokenInfo>)
      ensures ScanResult(store, id, info)
    {
      var rest := store.Keys;
      while rest != {}
        invariant rest <= store.Keys
        invariant forall t :: t in store && t !in rest ==> store[t].id != id
        decreases rest
      {
        var t :| t in rest;
        if store[t].id == id {
          return Some(store[t]);
        }
        rest := rest - {t};
      }
      return None;
    }
  }

  // ---------- Runs against a plain map of live sessions ----------

  datatype Op = Add(info: TokenInfo) | Remove(token: string)

  function Apply(store: Store, op: Op, generate: TokenInfo -> string): Store {
    match op
    case Add(info) => store[generate(info) := info]
    case Remove(token) => store - {token}
  }

  function Run(store: Store, ops: seq<Op>, generate: TokenInfo -> string): Store
    decreases |ops|
  {
    if ops == [] then store else Run(Apply(store, ops[0], generate), ops[1..], generate)
  }

  /** Live sessions by ID: an addition brings one to life, the removal of its token ends it. */
  type Live = map<string, TokenInfo>

  function ApplyLive(live: Live, op: Op, generate: TokenInfo -> string): Live {
    match op
    case Add(info) => live[info.id := info]
    case Remove(token) => map id | id in live && generate(live[id]) != token :: live[id]
  }

  function RunLive(live: Live, ops: seq<Op>, generate: TokenInfo -> string): Live
    decreases |ops|
  {
    if ops == [] then live else RunLive(ApplyLive(live, ops[0], generate), ops[1..], generate)
  }

  /** Additions under one ID are of one session. */
  predicate UniqueIds(ops: seq<Op>) {
    forall i, j :: 0 <= i < |ops| && 0 <= j < |ops| && ops[i].Add? && ops[j].Add? && ops[i].info.id == ops[j].info.id
                   ==> ops[i].info == ops[j].info
  }

  /** Additions to come do not reuse the ID of a live session for another one. */
  predicate NoReuse(live: Live, ops: seq<Op>) {
    forall i :: 0 <= i < |ops| && ops[i].Add? && ops[i].info.id in live ==> live[ops[i].info.id] == ops[i].info
  }

  /** The store and the live map hold the same sessions under their own keys. */
  ghost predicate Agree(store: Store, live: Live, generate: TokenInfo -> string) {
    && Keyed(store, generate)
    && (forall id :: id in live ==> live[id].id == id && generate(live[id]) in store)
    && (forall t :: t in store ==> store[t].id in live && live[store[t].id] == store[t])
  }

  lemma ApplyAgrees(store: Store, live: Live, op: Op, generate: TokenInfo -> string)
    requires Injective(generate) && Agree(store, live, generate)
    requires op.Add? && op.info.id in live ==> live[op.info.id] == op.info
    ensures Agree(Apply(store, op, generate), ApplyLive(live, op, generate), generate)
  {
    var store', live' := Apply(store, op, generate), ApplyLive(live, op, generate);
    forall t | t in store' ensures store'[t].id in live' && live'[store'[t].id] == store'[t] {
      if op.Add? && t in store && t != generate(op.info) {
        assert store[t].id in live && generate(store[t]) == t;
      }
    }
  }

  lemma {:induction false} RunsAgree(store: Store, live: Live, ops: seq<Op>, generate: TokenInfo -> string)
    requires Injective(generate) && Agree(store, live, generate)
    requires UniqueIds(ops) && NoReuse(live, ops)
    ensures Agree(Run(store, ops, generate), RunLive(live, ops, generate), generate)
    decreases |ops|
  {
    if ops != [] {
      ApplyAgrees(store, live, ops[0], generate);
      assert forall i :: 0 <= i < |ops| - 1 ==> ops[1..][i] == ops[i + 1];
      RunsAgree(Apply(store, ops[0], generate), ApplyLive(live, ops[0], generate), ops[1..], generate);
    }
  }

  /** After every run, the lookup by token and the scan by ID find the same records, and both
      match the live map, in whatever order the scan meets the entries. */
  lemma IndexAgreement(ops: seq<Op>, generate: TokenInfo -> string, id: string, token: string, r: Option<TokenInfo>)
    requires Injective(generate) && UniqueIds(ops)
    requires ScanResult(Run(map[], ops, generate), id, r)
    ensures var store, live := Run(map[], ops, generate), RunLive(map[], ops, generate);
            && r == Get(live, id)
            && (r.Some? ==> Get(store, generate(r.value)) == r)
            && (Get(store, token).Some? <==> exists i :: i in live && generate(live[i]) == token)
            && (Get(store, token).Some? ==> Get(live, Get(store, token).value.id) == Get(store, token))
  {
    RunsAgree(map[], map[], ops, generate);
    var store, live := Run(map[], ops, generate), RunLive(map[], ops, generate);
    if id in live {
      assert store[generate(live[id])] == live[id];
    }
    if token in store {
      assert store[token].id in live;
    }
    forall i | i in live && generate(live[i]) == token ensures token in store {
    }
  }
}
