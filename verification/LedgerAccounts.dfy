/** The public ids that the ledger builds for its accounts never collide. */
module LedgerAccounts {
  import opened MarketTables
  import opened Ledger

  /** "prefix" + id + "_" + currency, with a currency code of three letters, determines id and currency. */
  lemma ScopedIdIsInjective(prefix: string, id1: Id, currency1: string, id2: Id, currency2: string)
    requires |currency1| == 3 && |currency2| == 3
    requires prefix + id1 + "_" + currency1 == prefix + id2 + "_" + currency2
    ensures id1 == id2 && currency1 == currency2
  {
    var s1, s2 := prefix + id1 + "_" + currency1, prefix + id2 + "_" + currency2;
    assert |s1| == |s2|;
    assert s1[|prefix|..|prefix| + |id1|] == id1 && s2[|prefix|..|prefix| + |id2|] == id2;
    assert s1[|s1| - 3..] == currency1 && s2[|s2| - 3..] == currency2;
  }

  lemma PlainIdIsInjective(prefix: string, currency1: string, currency2: string)
    requires prefix + currency1 == prefix + currency2
    ensures currency1 == currency2
  {
    assert (prefix + currency1)[|prefix|..] == currency1 && (prefix + currency2)[|prefix|..] == currency2;
  }

  /** The sixth and seventh characters tell the five kinds of account apart. */
  function KindCode(account: Account): string {
    match account
    case ProviderClearing(_) => "pr"
    case CampaignFunds(_, _) => "ca"
    case CreatorPayable(_, _) => "cr"
    case FeeRevenue(_) => "pl"
    case BusinessRefund(_, _) => "bu"
  }

  lemma KindShowsInId(account: Account)
    ensures |AccountId(account)| > 6 && AccountId(account)[5] == KindCode(account)[0] && AccountId(account)[6] == KindCode(account)[1]
  {
  }

  lemma AccountIdIsInjective(x: Account, y: Account)
    requires |x.currency| == 3 && |y.currency| == 3 && AccountId(x) == AccountId(y)
    ensures x == y
  {
    KindShowsInId(x);
    KindShowsInId(y);
    match x
    case ProviderClearing(currency) => PlainIdIsInjective("acct_provider_clearing_", currency, y.currency);
    case FeeRevenue(currency) => PlainIdIsInjective("acct_platform_fee_revenue_", currency, y.currency);
    case CampaignFunds(id, currency) => ScopedIdIsInjective("acct_campaign_funds_", id, currency, y.campaignId, y.currency);
    case CreatorPayable(id, currency) => ScopedIdIsInjective("acct_creator_payable_", id, currency, y.creatorId, y.currency);
    case BusinessRefund(id, currency) => ScopedIdIsInjective("acct_business_refund_", id, currency, y.businessId, y.currency);
  }

  ghost predicate AccountsKeyed(accounts: map<string, Account>) {
    forall id :: id in accounts ==> AccountId(accounts[id]) == id && |accounts[id].currency| == 3
  }

  /** An account that is already there under its id is that account, so ensuring it never conflicts. */
  lemma EnsuringNeverConflicts(accounts: map<string, Account>, account: Account)
    requires AccountsKeyed(accounts) && |account.currency| == 3
    ensures AccountUsable(accounts, account)
    ensures AccountsKeyed(EnsureAccount(accounts, account))
    ensures EnsureAccount(accounts, account) == accounts[AccountId(account) := account]
    ensures Row(EnsureAccount(accounts, account), account) == account
  {
    if AccountId(account) in accounts {
      AccountIdIsInjective(accounts[AccountId(account)], account);
    }
  }
}
