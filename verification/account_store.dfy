/** The command line's saved accounts: the store, the alias generator and the login decision. */
module AccountStore {
  import opened Decimal
  import opened Text

  // ----- free aliases

  /** base, base-2, base-3, ... */
  function Candidate(base: string, k: nat): string {
    if k == 0 then base else base + ("-" + Digits(k + 1))
  }

  lemma CandidatesDiffer(base: string, j: nat, k: nat)
    requires Candidate(base, j) == Candidate(base, k)
    ensures j == k
  {
    if j > 0 && k > 0 {
      assert Candidate(base, j)[|base| + 1..] == Digits(j + 1) && Candidate(base, k)[|base| + 1..] == Digits(k + 1);
      DigitsInjective(j + 1, k + 1);
    } else {
      assert |Candidate(base, j)| == |Candidate(base, k)|;
    }
  }

  ghost function FirstCandidates(base: string, k: nat): set<string> {
    if k == 0 then {} else FirstCandidates(base, k - 1) + {Candidate(base, k - 1)}
  }

  lemma {:induction false} CountCandidates(base: string, k: nat)
    ensures |FirstCandidates(base, k)| == k
    ensures forall alias | alias in FirstCandidates(base, k) :: exists j: nat :: j < k && alias == Candidate(base, j)
  {
    hide Candidate;
    if k > 0 {
      CountCandidates(base, k - 1);
      if Candidate(base, k - 1) in FirstCandidates(base, k - 1) {
        var j: nat :| j < k - 1 && Candidate(base, k - 1) == Candidate(base, j);
        CandidatesDiffer(base, k - 1, j);
      }
    }
  }

  ghost predicate AllTaken(existing: set<string>, base: string, k: nat) {
    forall j: nat | j < k :: Candidate(base, j) in existing
  }

  /** Pigeonhole: no more candidates can be taken than there are aliases. */
  lemma TakenAreFew(existing: set<string>, base: string, k: nat)
    requires AllTaken(existing, base, k)
    ensures k <= |existing|
  {
    CountCandidates(base, k);
    var taken := FirstCandidates(base, k);
    assert taken <= existing;
    assert existing == taken + (existing - taken);
  }

  /** How many candidates are taken before the first free one. */
  ghost function FreeFrom(existing: set<string>, base: string, k: nat): (n: nat)
    requires AllTaken(existing, base, k)
    ensures k <= n <= |existing| && Candidate(base, n) !in existing && AllTaken(existing, base, n)
    decreases |existing| + 1 - k
  {
    TakenAreFew(existing, base, k);
    if Candidate(base, k) !in existing then k else FreeFrom(existing, base, k + 1)
  }

  ghost function FirstFree(existing: set<string>, base: string): string {
    Candidate(base, FreeFrom(existing, base, 0))
  }

  /** The loop as written ends after at most as many turns as there are aliases, at the first free candidate. */
  method NextFreeAlias(existing: set<string>, base: string) returns (candidate: string, ghost turns: nat)
    ensures candidate !in existing && candidate == Candidate(base, turns) && turns <= |existing|
    ensures forall j: nat | j < turns :: Candidate(base, j) in existing
    ensures candidate == FirstFree(existing, base)
  {
    candidate := base;
    var counter := 2;
    turns := 0;
    while candidate in existing
      invariant counter == turns + 2 && candidate == Candidate(base, turns) && AllTaken(existing, base, turns)
      invariant FreeFrom(existing, base, turns) == FreeFrom(existing, base, 0)
      decreases |existing| + 1 - turns
    {
      TakenAreFew(existing, base, turns + 1);
      candidate := base + ("-" + Digits(counter));
      counter := counter + 1;
      turns := turns + 1;
    }
    TakenAreFew(existing, base, turns);
  }

  // ----- the configuration

  datatype Account = Account(alias: string, email: string, token: string)

  datatype Config = Config(accounts: seq<Account>, currentAlias: Option<string>)

  /** Index of the account with an alias, or the number of accounts. */
  function IndexOf(accounts: seq<Account>, alias: string): (k: nat)
    ensures k <= |accounts|
    ensures k < |accounts| ==> accounts[k].alias == alias
    ensures forall i | 0 <= i < k :: accounts[i].alias != alias
  {
    if accounts == [] || accounts[0].alias == alias then 0 else 1 + IndexOf(accounts[1..], alias)
  }

  predicate Has(accounts: seq<Account>, alias: string) {
    IndexOf(accounts, alias) < |accounts|
  }

  function Aliases(accounts: seq<Account>): set<string> {
    set k | 0 <= k < |accounts| :: accounts[k].alias
  }

  /** Neither `null` nor empty. */
  predicate IsSet(alias: Option<string>) {
    alias.Some? && alias.value != ""
  }

  function Saved(c: Config, entry: Account): Config {
    var k := IndexOf(c.accounts, entry.alias);
    Config(if k < |c.accounts| then c.accounts[k := entry] else c.accounts + [entry],
           if !IsSet(c.currentAlias) || c.currentAlias == Some(entry.alias) then Some(entry.alias) else c.currentAlias)
  }

  function Without(accounts: seq<Account>, alias: string): seq<Account> {
    if accounts == [] then []
    else (if accounts[0].alias == alias then [] else [accounts[0]]) + Without(accounts[1..], alias)
  }

  function Removed(c: Config, alias: string): Config {
    var rest := Without(c.accounts, alias);
    if |rest| == |c.accounts| then c
    else
      var next := if rest == [] then None else Some(rest[0].alias);
      Config(rest, if c.currentAlias == Some(alias) then next else c.currentAlias)
  }

  function Relabelled(accounts: seq<Account>, from: string, to: string): seq<Account> {
    seq(|accounts|, i requires 0 <= i < |accounts| =>
      if accounts[i].alias == from then accounts[i].(alias := to) else accounts[i])
  }

  function Renamed(c: Config, from: string, to: string): Config {
    if !Has(c.accounts, from) || Has(c.accounts, to) then c
    else Config(Relabelled(c.accounts, from, to), if c.currentAlias == Some(from) then Some(to) else c.currentAlias)
  }

  function Switched(c: Config, alias: string): Config {
    if Has(c.accounts, alias) then c.(currentAlias := Some(alias)) else c
  }

  // ----- login

  /** A login: the account's email and token, `--alias` if given, the name in the email, and the operator's choice. */
  datatype Login = Login(email: string, token: string, alias: Option<string>, emailBase: string, overwrite: bool)

  function SameEmail(accounts: seq<Account>, email: string): Option<Account> {
    if accounts == [] then None
    else if accounts[0].email == email then Some(accounts[0])
    else SameEmail(accounts[1..], email)
  }

  /** Whether the operator is asked to choose between overwriting and adding. */
  predicate Asks(c: Config, l: Login) {
    SameEmail(c.accounts, l.email).Some? || (c.accounts != [] && IsSet(l.alias) && Has(c.accounts, l.alias.value))
  }

  ghost function LoginAlias(c: Config, l: Login): string {
    var existing := Aliases(c.accounts);
    match SameEmail(c.accounts, l.email)
    case Some(account) =>
      if l.overwrite then account.alias
      else FirstFree(existing, if l.alias.Some? then l.alias.value else l.emailBase)
    case None =>
      if c.accounts == [] then "default"
      else if IsSet(l.alias) then
        if Has(c.accounts, l.alias.value) && l.overwrite then l.alias.value else FirstFree(existing, l.alias.value)
      else FirstFree(existing, l.emailBase)
  }

  ghost function LoggedIn(c: Config, l: Login): Config {
    Saved(c, Account(LoginAlias(c, l), l.email, l.token))
  }

  // ----- every run

  datatype Op =
    | Save(entry: Account)
    | Remove(alias: string)
    | Rename(from: string, to: string)
    | Switch(alias: string)
    | LogIn(login: Login)

  ghost function Apply(c: Config, op: Op): Config {
    match op
    case Save(entry) => Saved(c, entry)
    case Remove(alias) => Removed(c, alias)
    case Rename(from, to) => Renamed(c, from, to)
    case Switch(alias) => Switched(c, alias)
    case LogIn(login) => LoggedIn(c, login)
  }

  ghost function Run(ops: seq<Op>): Config
    decreases |ops|
  {
    if ops == [] then Config([], None) else Apply(Run(Init(ops)), Last(ops))
  }

  ghost predicate DistinctAliases(accounts: seq<Account>) {
    forall i, j | 0 <= i < j < |accounts| :: accounts[i].alias != accounts[j].alias
  }

  /** Aliases are distinct; there is no current alias exactly if there is no account, else it names one. */
  ghost predicate Ok(c: Config) {
    && DistinctAliases(c.accounts)
    && (c.currentAlias == None <==> c.accounts == [])
    && (c.currentAlias.Some? ==> Has(c.accounts, c.currentAlias.value))
  }

  lemma HasIff(accounts: seq<Account>, alias: string)
    ensures Has(accounts, alias) <==> exists k :: 0 <= k < |accounts| && accounts[k].alias == alias
    ensures Has(accounts, alias) <==> alias in Aliases(accounts)
  {
    assert Has(accounts, alias) ==> accounts[IndexOf(accounts, alias)].alias == alias;
  }

  lemma SavedOk(c: Config, entry: Account)
    requires Ok(c)
    ensures Ok(Saved(c, entry))
  {
    hide Aliases;
    var d, k := Saved(c, entry), IndexOf(c.accounts, entry.alias);
    assert d.accounts[k] == entry;
    HasIff(d.accounts, entry.alias);
    if IsSet(c.currentAlias) {
      HasIff(c.accounts, c.currentAlias.value);
      HasIff(d.accounts, c.currentAlias.value);
      var i :| 0 <= i < |c.accounts| && c.accounts[i].alias == c.currentAlias.value;
      assert d.accounts[i].alias == c.currentAlias.value;
    }
  }

  lemma {:induction false} WithoutIsFilter(accounts: seq<Account>, alias: string)
    requires DistinctAliases(accounts)
    ensures var k := IndexOf(accounts, alias);
            Without(accounts, alias) == accounts[..k] + if k < |accounts| then accounts[k + 1..] else []
  {
    if accounts != [] {
      WithoutIsFilter(accounts[1..], alias);
      if accounts[0].alias == alias {
        assert IndexOf(accounts[1..], alias) == |accounts| - 1;
      }
    }
  }

  /** All accounts but the one at `k`, in order. */
  ghost predicate IsOneLess(accounts: seq<Account>, rest: seq<Account>, k: nat) {
    && |rest| == (if k < |accounts| then |accounts| - 1 else |accounts|)
    && forall i | 0 <= i < |rest| :: rest[i] == accounts[if i < k then i else i + 1]
  }

  lemma WithoutIsOneLess(accounts: seq<Account>, alias: string)
    requires DistinctAliases(accounts)
    ensures IsOneLess(accounts, Without(accounts, alias), IndexOf(accounts, alias))
  {
    WithoutIsFilter(accounts, alias);
    hide Without;
  }

  lemma OneLessIsDistinct(accounts: seq<Account>, rest: seq<Account>, k: nat)
    requires DistinctAliases(accounts) && IsOneLess(accounts, rest, k)
    ensures DistinctAliases(rest)
  {
  }

  lemma RemovedOk(c: Config, alias: string)
    requires Ok(c)
    ensures Ok(Removed(c, alias))
  {
    var d, k := Removed(c, alias), IndexOf(c.accounts, alias);
    var rest := Without(c.accounts, alias);
    WithoutIsOneLess(c.accounts, alias);
    OneLessIsDistinct(c.accounts, rest, k);
    hide Without, IndexOf, DistinctAliases;
    if k < |c.accounts| {
      if c.currentAlias == Some(alias) {
        if rest != [] {
          HasIff(rest, rest[0].alias);
        }
      } else {
        var i := IndexOf(c.accounts, c.currentAlias.value);
        assert rest[if i < k then i else i - 1] == c.accounts[i];
        HasIff(rest, c.currentAlias.value);
      }
    }
  }

  lemma RenamedOk(c: Config, from: string, to: string)
    requires Ok(c)
    ensures Ok(Renamed(c, from, to))
  {
    var d := Renamed(c, from, to);
    if Has(c.accounts, from) && !Has(c.accounts, to) {
      var i := IndexOf(c.accounts, c.currentAlias.value);
      assert d.accounts[i].alias == d.currentAlias.value;
      HasIff(d.accounts, d.currentAlias.value);
      HasIff(c.accounts, to);
    }
  }

  lemma ApplyOk(c: Config, op: Op)
    requires Ok(c)
    ensures Ok(Apply(c, op))
  {
    hide Ok;
    match op
    case Save(entry) => SavedOk(c, entry);
    case Remove(alias) => RemovedOk(c, alias);
    case Rename(from, to) => RenamedOk(c, from, to);
    case Switch(alias) => SwitchedOk(c, alias);
    case LogIn(l) => SavedOk(c, Account(LoginAlias(c, l), l.email, l.token));
  }

  lemma SwitchedOk(c: Config, alias: string)
    requires Ok(c)
    ensures Ok(Switched(c, alias))
  {
  }

  /** Over every run. */
  lemma {:induction false} RunOk(ops: seq<Op>)
    ensures Ok(Run(ops))
    decreases |ops|
  {
    hide Apply;
    if ops != [] {
      RunOk(Init(ops));
      ApplyOk(Run(Init(ops)), Last(ops));
    }
  }

  // ----- the current account

  function CurrentAccount(c: Config): Option<Account> {
    if !IsSet(c.currentAlias) then None
    else
      var k := IndexOf(c.accounts, c.currentAlias.value);
      if k < |c.accounts| then Some(c.accounts[k]) else None
  }

  /** There is a current account unless there are none, or the current one has the empty alias. */
  lemma CurrentAccountIff(ops: seq<Op>)
    ensures var c := Run(ops);
            CurrentAccount(c) == None <==> c.accounts == [] || c.currentAlias == Some("")
  {
    RunOk(ops);
  }

  /** A rename to the empty alias leaves an account and no current one. */
  lemma EmptyAliasExample()
    ensures var c := Run([Save(Account("a", "e", "t")), Rename("a", "")]);
            c.accounts == [Account("", "e", "t")] && CurrentAccount(c) == None
  {
    var save, rename := Save(Account("a", "e", "t")), Rename("a", "");
    assert Init([save, rename]) == [save] && Init([save]) == [];
    assert Run([save]) == Config([Account("a", "e", "t")], Some("a"));
  }

  /** What an operation brings in: no empty alias, and no empty name to make one from. */
  predicate BringsNames(op: Op) {
    match op
    case Save(entry) => entry.alias != ""
    case Remove(_) => true
    case Rename(_, to) => to != ""
    case Switch(_) => true
    case LogIn(l) => l.emailBase != "" && l.alias != Some("")
  }

  ghost predicate AllNamed(c: Config) {
    (forall i | 0 <= i < |c.accounts| :: c.accounts[i].alias != "") && c.currentAlias != Some("")
  }

  lemma LoginAliasIsNamed(c: Config, l: Login)
    requires AllNamed(c) && BringsNames(LogIn(l))
    ensures LoginAlias(c, l) != ""
  {
    var existing := Aliases(c.accounts);
    assert forall base: string, k: nat :: base != "" ==> Candidate(base, k) != "";
    SameEmailIsSaved(c.accounts, l.email);
    hide Candidate;
  }

  lemma ApplyNamed(c: Config, op: Op)
    requires Ok(c) && AllNamed(c) && BringsNames(op)
    ensures AllNamed(Apply(c, op))
  {
    match op
    case Save(entry) =>
    case Remove(alias) => WithoutIsFilter(c.accounts, alias);
    case Rename(from, to) =>
    case Switch(alias) =>
    case LogIn(l) => LoginAliasIsNamed(c, l);
  }

  /** On the inputs: a run that brings in no empty alias has a current account as soon as it has one. */
  lemma {:induction false} NamedRunHasCurrent(ops: seq<Op>)
    requires forall op | op in ops :: BringsNames(op)
    ensures AllNamed(Run(ops)) && (CurrentAccount(Run(ops)) == None <==> Run(ops).accounts == [])
    decreases |ops|
  {
    CurrentAccountIff(ops);
    hide Apply, CurrentAccount;
    if ops != [] {
      NamedRunHasCurrent(Init(ops));
      RunOk(Init(ops));
      ApplyNamed(Run(Init(ops)), Last(ops));
    }
  }

  // ----- what a login touches

  /** A login leaves every saved entry as it was, and adds one, unless the operator chose to overwrite. */
  lemma LoginAddsUnlessOverwriting(c: Config, l: Login)
    requires Ok(c)
    ensures LoggedIn(c, l).accounts == c.accounts + [Account(LoginAlias(c, l), l.email, l.token)]
            <==> !(Asks(c, l) && l.overwrite)
    ensures Asks(c, l) && l.overwrite ==>
              var k := IndexOf(c.accounts, LoginAlias(c, l));
              && k < |c.accounts|
              && LoggedIn(c, l).accounts == c.accounts[k := Account(LoginAlias(c, l), l.email, l.token)]
  {
    hide FirstFree;
    HasIff(c.accounts, LoginAlias(c, l));
    FirstFreeIsFree(c.accounts, if l.alias.Some? then l.alias.value else l.emailBase);
    FirstFreeIsFree(c.accounts, l.emailBase);
    SameEmailIsSaved(c.accounts, l.email);
  }

  lemma FirstFreeIsFree(accounts: seq<Account>, base: string)
    ensures !Has(accounts, FirstFree(Aliases(accounts), base))
  {
    HasIff(accounts, FirstFree(Aliases(accounts), base));
  }

  lemma {:induction false} SameEmailIsSaved(accounts: seq<Account>, email: string)
    ensures SameEmail(accounts, email).Some? ==> Has(accounts, SameEmail(accounts, email).value.alias)
  {
    if accounts != [] {
      SameEmailIsSaved(accounts[1..], email);
    }
  }

  // ----- the store

  /** The configuration file as the operations read it, change it and write it back. */
  class Store {
    var accounts: seq<Account>
    var currentAlias: Option<string>

    function View(): Config
      reads this
    {
      Config(accounts, currentAlias)
    }

    constructor ()
      ensures View() == Config([], None) && Ok(View())
    {
      accounts, currentAlias := [], None;
    }

    method SaveAccount(entry: Account)
      requires Ok(View())
      modifies this
      ensures View() == Apply(old(View()), Save(entry)) && Ok(View())
    {
      ApplyOk(View(), Save(entry));
      var idx := IndexOf(accounts, entry.alias);
      if idx < |accounts| {
        accounts := accounts[idx := entry];
      } else {
        accounts := accounts + [entry];
      }
      if currentAlias == None || currentAlias == Some("") || currentAlias == Some(entry.alias) {
        currentAlias := Some(entry.alias);
      }
    }

    method RemoveAccount(alias: string) returns (removed: bool)
      requires Ok(View())
      modifies this
      ensures View() == Apply(old(View()), Remove(alias)) && Ok(View())
      ensures removed <==> Has(old(accounts), alias)
    {
      ApplyOk(View(), Remove(alias));
      WithoutIsFilter(accounts, alias);
      var before := |accounts|;
      var rest := Without(accounts, alias);
      if |rest| == before {
        return false;
      }
      accounts := rest;
      if currentAlias == Some(alias) {
        currentAlias := if |accounts| > 0 then Some(accounts[0].alias) else None;
      }
      return true;
    }

    method RenameAccount(from: string, to: string) returns (ok: bool)
      requires Ok(View())
      modifies this
      ensures View() == Apply(old(View()), Rename(from, to)) && Ok(View())
      ensures ok <==> Has(old(accounts), from) && !Has(old(accounts), to)
    {
      ApplyOk(View(), Rename(from, to));
      if !Has(accounts, from) || Has(accounts, to) {
        return false;
      }
      ghost var before := accounts;
      var i := 0;
      while i < |accounts|
        invariant i <= |accounts| == |before| && currentAlias == old(currentAlias)
        invariant forall j | 0 <= j < i :: accounts[j] == Relabelled(before, from, to)[j]
        invariant forall j | i <= j < |before| :: accounts[j] == before[j]
      {
        if accounts[i].alias == from {
          accounts := accounts[i := accounts[i].(alias := to)];
        }
        i := i + 1;
      }
      assert accounts == Relabelled(before, from, to);
      if currentAlias == Some(from) {
        currentAlias := Some(to);
      }
      return true;
    }

    method SwitchAccount(alias: string) returns (ok: bool)
      requires Ok(View())
      modifies this
      ensures View() == Apply(old(View()), Switch(alias)) && Ok(View())
      ensures ok <==> Has(accounts, alias)
    {
      if !Has(accounts, alias) {
        return false;
      }
      currentAlias := Some(alias);
      return true;
    }

    /** The branches that choose the alias, then the save. */
    method LogInAs(l: Login)
      requires Ok(View())
      modifies this
      ensures View() == Apply(old(View()), LogIn(l)) && Ok(View())
    {
      var existing := Aliases(accounts);
      var sameEmail := SameEmail(accounts, l.email);
      var alias;
      ghost var turns;
      if sameEmail.Some? {
        if l.overwrite {
          alias := sameEmail.value.alias;
        } else {
          var base := if l.alias.Some? then l.alias.value else l.emailBase;
          if base in existing {
            alias, turns := NextFreeAlias(existing, base);
          } else {
            alias := base;
          }
        }
      } else if |accounts| == 0 {
        alias := "default";
      } else if l.alias.Some? && l.alias.value != "" {
        HasIff(accounts, l.alias.value);
        if l.alias.value in existing {
          if l.overwrite {
            alias := l.alias.value;
          } else {
            alias, turns := NextFreeAlias(existing, l.alias.value);
          }
        } else {
          alias := l.alias.value;
        }
      } else {
        alias, turns := NextFreeAlias(existing, l.emailBase);
      }
      assert alias == LoginAlias(View(), l);
      SaveAccount(Account(alias, l.email, l.token));
    }
  }
}
