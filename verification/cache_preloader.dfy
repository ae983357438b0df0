/** The cache preloader: named warm-up fetches run one after the other, each
    failure caught and recorded as `false` in a `name -> bool` result map.

    Nothing is fetched here. A `Client` value stands for the client: the set of
    calls that raise and the payload returned by the basic account listing.
    Each preload method returns, next to its result map, the trace of client
    calls it made, in order. */
module CachePreloader {
  import opened Json

  /** The client calls the preloader makes, with their arguments. */
  datatype Call =
    | GetTransactionCategories
    | GetAccountTypeOptions
    | GetMe
    | GetInstitutions
    | GetAccounts(detailLevel: string)
    | GetTransactions(windowDays: nat, limit: nat)
    | GetMerchants
    | GetTransactionRules
    | GetAllHoldingsBatch

  /** Stand-in for the client: which calls raise, and what the basic account
      listing returns when it does not. */
  datatype Client = Client(failing: set<Call>, accountListing: Json)

  /** The recent-transactions preload looks back seven days, fifty rows. */
  const RecentWindowDays: nat := 7
  const RecentLimit: nat := 50

  /** A key of the result maps. The first eight name a `_preload_*` task
      (the coroutine awaited under that key); `Holdings` is the entry of the
      investment preload, which is not run as a task. */
  datatype Key =
    | Categories
    | AccountTypes
    | UserProfile
    | Institutions
    | AccountsBasic
    | RecentTransactions
    | Merchants
    | TransactionRules
    | Holdings
  {
    /** The dict key the source uses. */
    function Name(): string
    {
      match this
      case Categories => "categories"
      case AccountTypes => "account_types"
      case UserProfile => "user_profile"
      case Institutions => "institutions"
      case AccountsBasic => "accounts_basic"
      case RecentTransactions => "recent_transactions"
      case Merchants => "merchants"
      case TransactionRules => "transaction_rules"
      case Holdings => "holdings"
    }

    /** The client call awaited under this key. */
    function Call(): Call
    {
      match this
      case Categories => GetTransactionCategories
      case AccountTypes => GetAccountTypeOptions
      case UserProfile => GetMe
      case Institutions => GetInstitutions
      case AccountsBasic => GetAccounts("basic")
      case RecentTransactions => GetTransactions(RecentWindowDays, RecentLimit)
      case Merchants => GetMerchants
      case TransactionRules => GetTransactionRules
      case Holdings => GetAllHoldingsBatch
    }

    /** Awaiting the task raises iff its call raises, except for the
        transaction-rules task, which swallows its own failure. */
    predicate Raises(client: Client)
    {
      Call() in client.failing && this != TransactionRules
    }
  }

  /** Distinct keys are distinct dict keys, so a map over `Key` is the
      source's `Dict[str, bool]`. */
  lemma NamesDistinct(a: Key, b: Key)
    requires a != b
    ensures a.Name() != b.Name()
  {
    NameParses(a);
    NameParses(b);
  }

  /** The key that a dict key names, if any. */
  function ParseKey(name: string): Option<Key>
  {
    if name == "categories" then Some(Categories)
    else if name == "account_types" then Some(AccountTypes)
    else if name == "user_profile" then Some(UserProfile)
    else if name == "institutions" then Some(Institutions)
    else if name == "accounts_basic" then Some(AccountsBasic)
    else if name == "recent_transactions" then Some(RecentTransactions)
    else if name == "merchants" then Some(Merchants)
    else if name == "transaction_rules" then Some(TransactionRules)
    else if name == "holdings" then Some(Holdings)
    else None
  }

  lemma NameParses(k: Key)
    ensures ParseKey(k.Name()) == Some(k)
  {
  }

  const EssentialTasks: seq<Key> := [Categories, AccountTypes, UserProfile, Institutions]
  const DashboardTasks: seq<Key> := [AccountsBasic, RecentTransactions, Merchants, TransactionRules]

  /** The result map after running `tasks` in order: `results[name] = True`
      on success and `False` on failure, a later write to a name winning. */
  function Recorded(tasks: seq<Key>, client: Client): map<Key, bool>
  {
    if tasks == [] then map[]
    else
      var last := tasks[|tasks| - 1];
      Recorded(tasks[..|tasks| - 1], client)[last := !last.Raises(client)]
  }

  /** The calls made by running `tasks`: every task, failing or not. */
  function CallsOf(tasks: seq<Key>): (r: seq<Call>)
    ensures |r| == |tasks|
    ensures forall i :: 0 <= i < |tasks| ==> r[i] == tasks[i].Call()
  {
    if tasks == [] then [] else CallsOf(tasks[..|tasks| - 1]) + [tasks[|tasks| - 1].Call()]
  }

  function KeysOf(tasks: seq<Key>): (r: set<Key>)
    ensures forall i :: 0 <= i < |tasks| ==> tasks[i]in r
    ensures forall k :: k in r ==> exists i :: 0 <= i < |tasks| && tasks[i] == k
  {
    if tasks == [] then {} else KeysOf(tasks[..|tasks| - 1]) + {tasks[|tasks| - 1]}
  }

  predicate DistinctKeysOf(tasks: seq<Key>)
  {
    forall i, j :: 0 <= i < j < |tasks| ==> tasks[i] != tasks[j]
  }

  /** Every task's name is a key of the result map, and nothing else is. */
  lemma {:induction false} RecordedKeys(tasks: seq<Key>, client: Client)
    ensures Recorded(tasks, client).Keys == KeysOf(tasks)
  {
    if tasks != [] {
      var front := tasks[..|tasks| - 1];
      RecordedKeys(front, client);
    }
  }

  /** With distinct names, each task's entry is exactly "it did not raise":
      a failure is recorded as `false` and does not affect any other entry. */
  lemma {:induction false} RecordedValue(tasks: seq<Key>, client: Client, i: nat)
    requires DistinctKeysOf(tasks)
    requires i < |tasks|
    ensures tasks[i] in Recorded(tasks, client)
    ensures Recorded(tasks, client)[tasks[i]] == !tasks[i].Raises(client)
  {
    var front := tasks[..|tasks| - 1];
    if i < |tasks| - 1 {
      RecordedValue(front, client, i);
    }
  }

  /** Runs the tasks one at a time (the loop awaits each in turn), catching
      each failure. */
  method RunTasks(tasks: seq<Key>, client: Client) returns (results: map<Key, bool>, calls: seq<Call>)
    ensures results == Recorded(tasks, client)
    ensures calls == CallsOf(tasks)
  {
    results, calls := map[], [];
    var i := 0;
    while i < |tasks|
      invariant 0 <= i <= |tasks|
      invariant results == Recorded(tasks[..i], client)
      invariant calls == CallsOf(tasks[..i])
    {
      var task := tasks[i];
      calls := calls + [task.Call()];
      if task.Raises(client) {
        results := results[task := false];
      } else {
        results := results[task := true];
      }
      assert tasks[..i + 1][..i] == tasks[..i];
      i := i + 1;
    }
    assert tasks[..i] == tasks;
  }

  /** The four essential entries, each true iff its fetch did not raise. */
  function EssentialOutcome(client: Client): map<Key, bool>
  {
    map[
      Categories := GetTransactionCategories !in client.failing,
      AccountTypes := GetAccountTypeOptions !in client.failing,
      UserProfile := GetMe !in client.failing,
      Institutions := GetInstitutions !in client.failing
    ]
  }

  /** The four dashboard entries; `transaction_rules` is always true. */
  function DashboardOutcome(client: Client): map<Key, bool>
  {
    map[
      AccountsBasic := GetAccounts("basic") !in client.failing,
      RecentTransactions := GetTransactions(RecentWindowDays, RecentLimit) !in client.failing,
      Merchants := GetMerchants !in client.failing,
      TransactionRules := true
    ]
  }

  /** Running four tasks writes their four entries in order. */
  lemma RecordedFour(tasks: seq<Key>, client: Client)
    requires |tasks| == 4
    ensures Recorded(tasks, client) ==
      map[][tasks[0] := !tasks[0].Raises(client)][tasks[1] := !tasks[1].Raises(client)]
           [tasks[2] := !tasks[2].Raises(client)][tasks[3] := !tasks[3].Raises(client)]
  {
    var one, two, three := tasks[..1], tasks[..2], tasks[..3];
    assert one[..0] == [] && two[..1] == one && three[..2] == two && tasks[..3] == three;
    assert Recorded(one, client) == map[][tasks[0] := !tasks[0].Raises(client)];
    assert Recorded(two, client) == Recorded(one, client)[tasks[1] := !tasks[1].Raises(client)];
    assert Recorded(three, client) == Recorded(two, client)[tasks[2] := !tasks[2].Raises(client)];
  }

  method PreloadEssentialData(client: Client) returns (results: map<Key, bool>, calls: seq<Call>)
    ensures results == EssentialOutcome(client)
    ensures calls == [GetTransactionCategories, GetAccountTypeOptions, GetMe, GetInstitutions]
  {
    results, calls := RunTasks(EssentialTasks, client);
    RecordedFour(EssentialTasks, client);
  }

  method PreloadDashboardData(client: Client) returns (results: map<Key, bool>, calls: seq<Call>)
    ensures results == DashboardOutcome(client)
    ensures calls == [GetAccounts("basic"), GetTransactions(RecentWindowDays, RecentLimit), GetMerchants, GetTransactionRules]
  {
    results, calls := RunTasks(DashboardTasks, client);
    RecordedFour(DashboardTasks, client);
  }

  /** `acc.get("type", {}).get("name")`: raises when `acc` or its type is
      not a dict; a missing key gives `None`. */
  function AccountTypeName(acc: Json): Outcome<Json>
  {
    match acc
    case JObject(fields) =>
      (match GetOr(fields, "type", JObject([]))
       case JObject(typeFields) => Returned(GetOr(typeFields, "name", JNull))
       case _ => Raised("'type' has no attribute 'get'"))
    case _ => Raised("account has no attribute 'get'")
  }

  predicate IsInvestmentTypeName(name: Json)
  {
    name == JString("investment") || name == JString("retirement")
  }

  /** The account is an investment or retirement account, read without raising. */
  predicate IsInvestmentAccount(acc: Json)
  {
    AccountTypeName(acc).Returned? && IsInvestmentTypeName(AccountTypeName(acc).value)
  }

  /** `any(...)` over the listed accounts: stops at the first investment or
      retirement account, and raises at the first account it cannot read
      before that. */
  function AnyInvestment(accounts: seq<Json>): (r: Outcome<bool>)
    ensures r == Returned(true) ==> exists i :: 0 <= i < |accounts| && IsInvestmentAccount(accounts[i])
    ensures r == Returned(false) ==> forall i :: 0 <= i < |accounts| ==> !IsInvestmentAccount(accounts[i])
    ensures (forall i :: 0 <= i < |accounts| ==> AccountTypeName(accounts[i]).Returned?) ==> r.Returned?
  {
    if accounts == [] then Returned(false)
    else
      match AccountTypeName(accounts[0])
      case Raised(m) => Raised(m)
      case Returned(name) =>
        if IsInvestmentTypeName(name) then Returned(true) else AnyInvestment(accounts[1..])
  }

  /** The `has_investments` test over the basic account listing:
      `accounts.get("accounts", [])` iterated; a missing list means none. */
  function HasInvestments(listing: Json): Outcome<bool>
  {
    match listing
    case JObject(fields) =>
      (match GetOr(fields, "accounts", JList([]))
       case JList(items) => AnyInvestment(items)
       // iterating a dict yields its keys and a string its characters,
       // neither of which has `.get`; an empty one is iterated zero times
       case JObject(keys) => if keys == [] then Returned(false) else Raised("'str' object has no attribute 'get'")
       case JString(s) => if s == [] then Returned(false) else Raised("'str' object has no attribute 'get'")
       case _ => Raised("object is not iterable"))
    case _ => Raised("listing has no attribute 'get'")
  }

  /** The holdings entry: false iff the listing raises, the scan raises, or
      there are investment accounts and the batch holdings fetch raises. */
  function InvestmentOutcome(client: Client): map<Key, bool>
  {
    var scan := HasInvestments(client.accountListing);
    var ok :=
      GetAccounts("basic") !in client.failing
      && scan.Returned?
      && (scan.value ==> GetAllHoldingsBatch !in client.failing);
    map[Holdings := ok]
  }

  /** The batch holdings fetch is made only after a successful listing that
      shows an investment or retirement account. */
  predicate FetchesHoldings(client: Client)
  {
    GetAccounts("basic") !in client.failing && HasInvestments(client.accountListing) == Returned(true)
  }

  method PreloadInvestmentData(client: Client) returns (results: map<Key, bool>, calls: seq<Call>)
    ensures results == InvestmentOutcome(client)
    ensures calls == [GetAccounts("basic")] + (if FetchesHoldings(client) then [GetAllHoldingsBatch] else [])
  {
    calls := [GetAccounts("basic")];
    if GetAccounts("basic") in client.failing {
      results := map[Holdings := false];
      return;
    }
    var scan := HasInvestments(client.accountListing);
    if scan.Raised? {
      results := map[Holdings := false];
    } else if scan.value {
      calls := calls + [GetAllHoldingsBatch];
      if GetAllHoldingsBatch in client.failing {
        results := map[Holdings := false];
      } else {
        results := map[Holdings := true];
      }
    } else {
      // no investment accounts: nothing to preload, recorded as success
      results := map[Holdings := true];
    }
  }

  /** The entries a context adds to the essential ones. */
  function ContextOutcome(context: string, client: Client): map<Key, bool>
  {
    if context == "dashboard" then DashboardOutcome(client)
    else if context == "investments" then InvestmentOutcome(client)
    else if context == "transactions" then DashboardOutcome(client)
    else map[]
  }

  /** `smart_preload`: the essential entries updated with the context's. */
  function SmartOutcome(context: string, client: Client): map<Key, bool>
  {
    EssentialOutcome(client) + ContextOutcome(context, client)
  }

  function ContextCalls(context: string, client: Client): seq<Call>
  {
    if context == "dashboard" || context == "transactions" then
      [GetAccounts("basic"), GetTransactions(RecentWindowDays, RecentLimit), GetMerchants, GetTransactionRules]
    else if context == "investments" then
      [GetAccounts("basic")] + (if FetchesHoldings(client) then [GetAllHoldingsBatch] else [])
    else []
  }

  /** Never raises: every sub-preload catches its own failures. */
  method SmartPreload(context: string, client: Client) returns (results: map<Key, bool>, calls: seq<Call>)
    ensures results == SmartOutcome(context, client)
    ensures calls == [GetTransactionCategories, GetAccountTypeOptions, GetMe, GetInstitutions] + ContextCalls(context, client)
  {
    results, calls := PreloadEssentialData(client);
    if context == "dashboard" {
      var more, moreCalls := PreloadDashboardData(client);
      results, calls := results + more, calls + moreCalls;
    } else if context == "investments" {
      var more, moreCalls := PreloadInvestmentData(client);
      results, calls := results + more, calls + moreCalls;
    } else if context == "transactions" {
      // same as the dashboard preload
      var more, moreCalls := PreloadDashboardData(client);
      results, calls := results + more, calls + moreCalls;
    }
  }

  const EssentialKeys: set<Key> := {Categories, AccountTypes, UserProfile, Institutions}
  const DashboardKeys: set<Key> := {AccountsBasic, RecentTransactions, Merchants, TransactionRules}

  function ContextKeys(context: string): set<Key>
  {
    if context == "dashboard" || context == "transactions" then DashboardKeys
    else if context == "investments" then {Holdings}
    else {}
  }

  /** The result keys are the essential keys and the context's keys, which
      never overlap, so no essential entry is overwritten. */
  lemma SmartKeys(context: string, client: Client)
    ensures SmartOutcome(context, client).Keys == EssentialKeys + ContextKeys(context)
    ensures EssentialKeys !! ContextKeys(context)
    ensures forall k :: k in EssentialKeys ==> SmartOutcome(context, client)[k] == EssentialOutcome(client)[k]
  {
    var e, c := EssentialOutcome(client), ContextOutcome(context, client);
    assert e.Keys == EssentialKeys;
    ContextOutcomeKeys(context, client);
    assert EssentialKeys !! ContextKeys(context);
    forall k | k in EssentialKeys
      ensures (e + c)[k] == e[k]
    {
      assert k !in c.Keys;
    }
  }

  lemma ContextOutcomeKeys(context: string, client: Client)
    ensures ContextOutcome(context, client).Keys == ContextKeys(context)
  {
    if context == "dashboard" || context == "transactions" {
      assert DashboardOutcome(client).Keys == DashboardKeys;
    } else if context == "investments" {
      assert InvestmentOutcome(client).Keys == {Holdings};
    }
  }

  /** Each essential entry is true iff its own fetch did not raise. */
  lemma EssentialEntries(context: string, client: Client)
    ensures SmartOutcome(context, client)[Categories] <==> GetTransactionCategories !in client.failing
    ensures SmartOutcome(context, client)[AccountTypes] <==> GetAccountTypeOptions !in client.failing
    ensures SmartOutcome(context, client)[UserProfile] <==> GetMe !in client.failing
    ensures SmartOutcome(context, client)[Institutions] <==> GetInstitutions !in client.failing
  {
    SmartKeys(context, client);
  }

  /** `transaction_rules`, whenever present, is true. */
  lemma TransactionRulesNeverFalse(context: string, client: Client)
    ensures TransactionRules in SmartOutcome(context, client) ==> SmartOutcome(context, client)[TransactionRules]
    ensures TransactionRules in SmartOutcome(context, client) <==> context == "dashboard" || context == "transactions"
  {
    SmartKeys(context, client);
  }

  /** The transactions context is the dashboard context. */
  lemma TransactionsIsDashboard(client: Client)
    ensures SmartOutcome("transactions", client) == SmartOutcome("dashboard", client)
    ensures ContextCalls("transactions", client) == ContextCalls("dashboard", client)
  {
  }

  /** Any unrecognised context preloads only the essential data. */
  lemma UnknownContextIsEssentialOnly(context: string, client: Client)
    requires context !in {"dashboard", "investments", "transactions"}
    ensures SmartOutcome(context, client) == EssentialOutcome(client)
    ensures ContextCalls(context, client) == []
  {
  }

  /** Without an investment or retirement account the batch fetch is not made
      and holdings is true, whether or not the batch fetch would have failed. */
  lemma NoInvestmentsSkipsBatch(client: Client)
    requires GetAccounts("basic") !in client.failing
    requires HasInvestments(client.accountListing) == Returned(false)
    ensures InvestmentOutcome(client) == map[Holdings := true]
    ensures GetAllHoldingsBatch !in ContextCalls("investments", client)
  {
  }

  /** An account listing whose accounts are all readable never makes the scan
      raise, so holdings then fails only through a fetch. */
  lemma {:induction false} ReadableListingScans(client: Client, items: seq<Json>)
    requires client.accountListing.JObject?
    requires GetOr(client.accountListing.fields, "accounts", JList([])) == JList(items)
    requires forall i :: 0 <= i < |items| ==> AccountTypeName(items[i]).Returned?
    ensures InvestmentOutcome(client)[Holdings] <==>
              GetAccounts("basic") !in client.failing
              && (HasInvestments(client.accountListing).value ==> GetAllHoldingsBatch !in client.failing)
  {
    assert HasInvestments(client.accountListing) == AnyInvestment(items);
  }
}
