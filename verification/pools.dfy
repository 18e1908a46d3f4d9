/** Choosing a pool for a new thread, and saying why nothing could be chosen. */
module Pools {
  import opened Domain
  import S = Sse
  import T = Tables

  // ---------------------------------------------------------------------- selection

  datatype Wanted = Wanted(protocol: S.Protocol, model: string, pool: Option<PoolId>, account: Option<AccountId>)

  predicate Usable(a: Account, w: Wanted) {
    a.enabled && S.ProtocolOf(a.product) == w.protocol && a.Serves(w.model) && (w.account.None? || w.account.value == a.id)
  }

  /** An enabled account that speaks the protocol, serves the model and is not excluded by a pin
      offers each of its own pools that the caller did not rule out. */
  predicate Offers(a: Account, w: Wanted, pool: PoolId, product: Product) {
    && a.enabled && ("*" in a.models || w.model in a.models) && (w.account == None || w.account == Some(a.id))
    && (w.protocol == S.Responses <==> a.product == CodexSubscription)
    && pool in a.pools && (w.pool == None || w.pool == Some(pool)) && product == a.product
  }

  predicate Offered(accounts: seq<Account>, w: Wanted, choice: (PoolId, Product)) {
    exists i :: 0 <= i < |accounts| && Offers(accounts[i], w, choice.0, choice.1)
  }

  lemma OfferedNext(accounts: seq<Account>, i: nat, w: Wanted, choice: (PoolId, Product))
    requires i < |accounts|
    ensures Offered(accounts[..i + 1], w, choice) <==>
      Offered(accounts[..i], w, choice) || Offers(accounts[i], w, choice.0, choice.1)
  {
    var now, next := accounts[..i], accounts[..i + 1];
    assert forall k :: 0 <= k < i ==> next[k] == now[k];
    assert next[i] == accounts[i];
  }

  /** The choice is made exactly when there is one to make; more than one is the caller's to settle. */
  method SelectPool(accounts: seq<Account>, w: Wanted) returns (r: Result<(PoolId, Product)>)
    ensures r.Ok? ==> Offered(accounts, w, r.value) && forall c :: Offered(accounts, w, c) ==> c == r.value
    ensures r.Err? ==> r.error == NewError(NoEligibleAccount) || r.error == NewError(InvalidInput)
    ensures r == Err(NewError(NoEligibleAccount)) ==> forall c :: !Offered(accounts, w, c)
    ensures r == Err(NewError(InvalidInput)) ==> exists c, d :: c != d && Offered(accounts, w, c) && Offered(accounts, w, d)
  {
    var choices: set<(PoolId, Product)> := {};
    for i := 0 to |accounts|
      invariant forall c :: c in choices <==> Offered(accounts[..i], w, c)
    {
      var account := accounts[i];
      forall c
        ensures Offered(accounts[..i + 1], w, c) <==>
          Offered(accounts[..i], w, c) || Offers(account, w, c.0, c.1)
      {
        OfferedNext(accounts, i, w, c);
      }
      hide Offered;
      if Usable(account, w) {
        ghost var before := choices;
        var todo := account.pools;
        while todo != {}
          invariant todo <= account.pools
          invariant forall c :: c in choices <==>
            c in before || (c.0 in account.pools - todo && Offers(account, w, c.0, c.1))
          decreases todo
        {
          var pool :| pool in todo;
          todo := todo - {pool};
          if w.pool.None? || w.pool.value == pool { choices := choices + {(pool, account.product)}; }
        }
      }
    }
    assert accounts[..|accounts|] == accounts;
    if choices == {} { return Err(NewError(NoEligibleAccount)); }
    var choice :| choice in choices;
    if choices == {choice} {
      assert forall c :: c in choices ==> c == choice;
      return Ok(choice);
    }
    ghost var others := choices - {choice};
    assert others == {} ==> choices == {choice};
    ghost var other :| other in others;
    assert Offered(accounts, w, choice) && Offered(accounts, w, other);
    r := Err(NewError(InvalidInput));
  }

  // -------------------------------------------------------------------- explanations

  lemma {:induction false} ApplicableAre(list: seq<AccountExclusion>, x: AccountExclusion)
    ensures x in T.Applicable(list) <==> x in list && x.code != NoEligibleAccount
  {
    if list != [] {
      ApplicableAre(list[1..], x);
      assert list == [list[0]] + list[1..];
    }
  }

  lemma ApplicableMeans(list: seq<AccountExclusion>, code: ErrorCode)
    requires code != NoEligibleAccount
    ensures (exists i :: 0 <= i < |T.Applicable(list)| && T.Applicable(list)[i].code == code) <==>
      exists i :: 0 <= i < |list| && list[i].code == code
    ensures (forall i :: 0 <= i < |T.Applicable(list)| ==> T.Applicable(list)[i].code == code) <==>
      forall i :: 0 <= i < |list| ==> list[i].code == code || list[i].code == NoEligibleAccount
  {
    forall x
      ensures x in T.Applicable(list) <==> x in list && x.code != NoEligibleAccount
    {
      ApplicableAre(list, x);
    }
    hide T.Applicable;
    assert forall i :: 0 <= i < |list| ==> list[i] in list;
    assert forall i :: 0 <= i < |T.Applicable(list)| ==> T.Applicable(list)[i] in T.Applicable(list);
  }

  /** Without a pin, a specific reason is given exactly when it is the only one that keeps
      any matching account out. */
  lemma OneReasonForAll(intent: CreateBinding, list: seq<AccountExclusion>, code: ErrorCode)
    requires intent.account.None? && code != NoEligibleAccount
    ensures T.NoEligible(intent, list).code == code <==>
      && (exists i :: 0 <= i < |list| && list[i].code == code)
      && forall i :: 0 <= i < |list| ==> list[i].code == code || list[i].code == NoEligibleAccount
  {
    ApplicableMeans(list, code);
  }
}
