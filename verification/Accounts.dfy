/** Email addresses and accounts: one user, one signup bonus and one login target per address. */
module Accounts {
  import opened Sums
  import opened Domain
  import opened BankOps
  import opened Ledger
  import opened Service
  import CatalogueOps
  import Lifecycle
  import Runs

  /** Someone has this address. */
  predicate Taken(users: seq<User>, email: string) {
    exists i :: 0 <= i < |users| && users[i].email == Some(email)
  }

  lemma HasEmailIs(users: seq<User>, email: string)
    ensures Where(users, HasEmail(Some(email))) != [] <==> Taken(users, email)
    ensures Where(users, HasEmail(None)) == []
  {
    NobodyHasNone(users);
    var found := Where(users, HasEmail(Some(email)));
    hide Where;
    forall i | 0 <= i < |users| ensures HasEmail(Some(email))(users[i]) <==> users[i].email == Some(email) {
    }
    if Taken(users, email) {
      var i :| 0 <= i < |users| && users[i].email == Some(email);
      assert i in found;
    }
    if found != [] {
      assert HasEmail(Some(email))(users[found[0]]);
    }
  }

  lemma NobodyHasNone(users: seq<User>)
    ensures Where(users, HasEmail(None)) == []
  {
    hide Where;
    WhereNone(users, HasEmail(None));
  }

  /** What a successful registration adds: the user with the address, the wallet with the bonus, and the bonus row. */
  predicate Joined(bank: Bank, next: Bank, email: Option<string>, bonus: int) {
    var u := |bank.users|;
    && next.users == bank.users + [User(email)]
    && next.wallets == bank.wallets[u := bonus]
    && next.ledger == bank.ledger + [LedgerRow(u, bonus, TxSignupBonus, None, bonus)]
    && next.bets == bank.bets
  }

  lemma EnrollJoins(bank: Bank, email: Option<string>, bonus: int)
    requires Enroll(bank, email, bonus).Ok?
    ensures Joined(bank, Enroll(bank, email, bonus).value, email, bonus)
    ensures Enroll(bank, email, bonus).value.identities == bank.identities
  {
    hide Where, HasEmail;
    EnrollEffect(bank, email, bonus);
  }

  lemma FreshIsEnrolled(bank: Bank, email: Option<string>, bonus: int)
    requires BankInv(bank, bonus) && Where(bank.users, HasEmail(email)) == []
    ensures Enroll(bank, email, bonus).Ok? <==> bonus >= 0
  {
    hide Where, HasEmail, Chained, Owned, BonusFirst, Balanced;
    assert |bank.users| !in bank.wallets;
  }

  /** A registration is refused exactly for a taken address or a negative bonus, and otherwise adds one account. */
  lemma RegisterExactlyWhen(db: Db, cfg: Config, email: string)
    requires Runs.Inv(db, cfg)
    ensures var r := BankOps.Register(db.bank, email, cfg.signupBonus);
      && (r.Ok? <==> cfg.signupBonus >= 0 && forall i :: 0 <= i < |db.bank.users| ==> db.bank.users[i].email != Some(email))
      && ((exists i :: 0 <= i < |db.bank.users| && db.bank.users[i].email == Some(email)) ==> r == Err(ErrConflict))
      && (r.Ok? ==> Joined(db.bank, r.value, Some(email), cfg.signupBonus))
  {
    hide BankInv, CatalogueOps.Sane, Lifecycle.InStep, Runs.BetsFit, Where, HasEmail, Joined;
    HasEmailIs(db.bank.users, email);
    if Taken(db.bank.users, email) {
      TakenIsRefused(db.bank, email, cfg.signupBonus);
    } else {
      FreshIsEnrolled(db.bank, Some(email), cfg.signupBonus);
      if cfg.signupBonus >= 0 {
        EnrollJoins(db.bank, Some(email), cfg.signupBonus);
      }
    }
  }

  lemma TakenIsRefused(bank: Bank, email: string, bonus: int)
    requires Where(bank.users, HasEmail(Some(email))) != []
    ensures Enroll(bank, Some(email), bonus) == Err(ErrConflict)
  {
    hide Where, HasEmail;
  }

  /** In every reachable database two users with one address are the same user. */
  lemma OneUserPerAddress(cfg: Config, ops: seq<Op>, i: nat, j: nat)
    requires var users := Run(EMPTY, cfg, ops).bank.users;
      i < |users| && j < |users| && users[i].email.Some? && users[i].email == users[j].email
    ensures i == j
  {
    Runs.ReachableKeepsInv(cfg, ops);
    hide Run, BankInv, Runs.BetsFit;
  }

  /** So each address has been given one signup bonus, of the configured amount. */
  lemma OneBonusPerAddress(cfg: Config, ops: seq<Op>, k: nat, l: nat)
    requires var bank := Run(EMPTY, cfg, ops).bank;
      && k < |bank.ledger| && l < |bank.ledger| && bank.ledger[k].kind == bank.ledger[l].kind == TxSignupBonus
      && bank.ledger[k].userId < |bank.users| && bank.ledger[l].userId < |bank.users|
      && bank.users[bank.ledger[k].userId].email.Some?
      && bank.users[bank.ledger[k].userId].email == bank.users[bank.ledger[l].userId].email
    ensures k == l && Run(EMPTY, cfg, ops).bank.ledger[k].amount == cfg.signupBonus
  {
    var bank := Run(EMPTY, cfg, ops).bank;
    OneUserPerAddress(cfg, ops, bank.ledger[k].userId, bank.ledger[l].userId);
    Runs.ReachableKeepsInv(cfg, ops);
    hide Run;
    UserHasOneBonus(bank, cfg.signupBonus, bank.ledger[k].userId, k, l);
  }

  lemma UserHasOneBonus(bank: Bank, bonus: int, u: nat, k: nat, l: nat)
    requires BankInv(bank, bonus) && u < |bank.users| && k < |bank.ledger| && l < |bank.ledger|
    requires bank.ledger[k].userId == bank.ledger[l].userId == u && bank.ledger[k].kind == bank.ledger[l].kind == TxSignupBonus
    ensures k == l && bank.ledger[k].amount == bonus
  {
    assert u in bank.wallets;
    hide BankInv;
    var first := OneSignupBonus(bank, bonus, u);
  }

  // ---------- logging in ----------

  /** A new identity with a known address is linked to the user who has it: no user, wallet or row is added. */
  lemma LoginFindsAddress(db: Db, cfg: Config, provider: Provider, externalId: string, email: string, i: nat)
    requires Runs.Inv(db, cfg) && (provider, externalId) !in db.bank.identities
    requires i < |db.bank.users| && db.bank.users[i].email == Some(email)
    ensures LoginOrRegister(db.bank, provider, externalId, Some(email), cfg.signupBonus)
         == Ok((db.bank.(identities := db.bank.identities[(provider, externalId) := i]), i))
  {
    hide BankInv, CatalogueOps.Sane, Lifecycle.InStep, Runs.BetsFit, Enroll;
    var users := db.bank.users;
    HasEmailIs(users, email);
    assert Taken(users, email);
    var found := Where(users, HasEmail(Some(email)));
    assert users[found[0]].email == Some(email);
    assert found[0] < i || i < found[0] || found[0] == i;
  }

  /** A new identity with an address nobody has, or with none, opens one account with one bonus. */
  lemma LoginOpensAccount(db: Db, cfg: Config, provider: Provider, externalId: string, email: Option<string>)
    requires Runs.Inv(db, cfg) && cfg.signupBonus >= 0 && (provider, externalId) !in db.bank.identities
    requires email.Some? ==> forall i :: 0 <= i < |db.bank.users| ==> db.bank.users[i].email != email
    ensures var r := LoginOrRegister(db.bank, provider, externalId, email, cfg.signupBonus);
      && r.Ok? && r.value.1 == |db.bank.users| && Joined(db.bank, r.value.0, email, cfg.signupBonus)
      && r.value.0.identities == db.bank.identities[(provider, externalId) := |db.bank.users|]
  {
    hide BankInv, CatalogueOps.Sane, Lifecycle.InStep, Runs.BetsFit, Where, HasEmail, Enroll;
    HasEmailIs(db.bank.users, if email.Some? then email.value else "");
    FreshIsEnrolled(db.bank, email, cfg.signupBonus);
    EnrollJoins(db.bank, email, cfg.signupBonus);
  }

  /** A known identity logs its user in, whatever address comes with it, and writes nothing. */
  lemma LoginFindsIdentity(db: Db, cfg: Config, provider: Provider, externalId: string, email: Option<string>)
    requires Runs.Inv(db, cfg) && (provider, externalId) in db.bank.identities
    ensures db.bank.identities[(provider, externalId)] < |db.bank.users|
    ensures LoginOrRegister(db.bank, provider, externalId, email, cfg.signupBonus)
         == Ok((db.bank, db.bank.identities[(provider, externalId)]))
  {
    hide CatalogueOps.Sane, Lifecycle.InStep, Runs.BetsFit, Chained, Owned, BonusFirst, Balanced;
  }
}
