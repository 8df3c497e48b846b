/** What each operation on the saved accounts does to the account behind every alias. */
module AccountLaws {
  import opened AccountStore
  import opened Decimal
  import opened Text

  /** The account saved under an alias. */
  function Lookup(c: Config, alias: string): Option<Account> {
    var k := IndexOf(c.accounts, alias);
    if k < |c.accounts| then Some(c.accounts[k]) else None
  }

  lemma LookupAt(c: Config, i: nat)
    requires DistinctAliases(c.accounts) && i < |c.accounts|
    ensures Lookup(c, c.accounts[i].alias) == Some(c.accounts[i])
  {
    var k := IndexOf(c.accounts, c.accounts[i].alias);
    assert k <= i;
  }

  lemma LookupIs(c: Config, alias: string)
    ensures Lookup(c, alias) == None ==> forall i | 0 <= i < |c.accounts| :: c.accounts[i].alias != alias
    ensures Lookup(c, alias).Some? ==>
              exists i ::
                  0 <= i < |c.accounts| && c.accounts[i] == Lookup(c, alias).value && c.accounts[i].alias == alias
  {
    var k := IndexOf(c.accounts, alias);
    if k < |c.accounts| {
      assert c.accounts[k].alias == alias;
    }
  }

  /** No current alias is set, or it is empty. */
  predicate NoneIsCurrent(c: Config) {
    c.currentAlias == None || c.currentAlias == Some("")
  }

  /** A save puts the entry under its alias, in place if it is there, and selects it only if none was selected. */
  lemma SaveDoes(c: Config, entry: Account)
    requires Ok(c)
    ensures var d := Apply(c, Save(entry));
            && Lookup(d, entry.alias) == Some(entry)
            && (forall alias | alias != entry.alias :: Lookup(d, alias) == Lookup(c, alias))
            && |d.accounts| == |c.accounts| + (if Lookup(c, entry.alias) == None then 1 else 0)
            && (forall i | 0 <= i < |c.accounts| :: d.accounts[i].alias == c.accounts[i].alias)
            && d.currentAlias == if NoneIsCurrent(c) then Some(entry.alias) else c.currentAlias
  {
    var d := Apply(c, Save(entry));
    SavedOk(c, entry);
    var k := IndexOf(c.accounts, entry.alias);
    assert d.accounts[k] == entry;
    LookupAt(d, k);
    forall alias | alias != entry.alias
      ensures Lookup(d, alias) == Lookup(c, alias)
    {
      LookupIs(c, alias);
      LookupIs(d, alias);
      if Lookup(c, alias).Some? {
        var i :| 0 <= i < |c.accounts| && c.accounts[i] == Lookup(c, alias).value && c.accounts[i].alias == alias;
        assert d.accounts[i] == c.accounts[i];
        LookupAt(d, i);
      }
    }
  }

  /** A removal takes one entry away; the first of the others is selected if it was the selected one. */
  lemma RemoveDoes(c: Config, alias: string)
    requires Ok(c)
    ensures var d := Apply(c, Remove(alias));
            && Lookup(d, alias) == None
            && (forall other | other != alias :: Lookup(d, other) == Lookup(c, other))
            && (Lookup(c, alias) == None ==> d == c)
            && (Lookup(c, alias).Some? ==> |d.accounts| == |c.accounts| - 1)
            && (c.currentAlias != Some(alias) ==> d.currentAlias == c.currentAlias)
            && (c.currentAlias == Some(alias) ==>
                  d.currentAlias == if |c.accounts| == 1 then None
                                    else if c.accounts[0].alias == alias then Some(c.accounts[1].alias)
                                    else Some(c.accounts[0].alias))
  {
    RemovedIs(c, alias);
    var d, k := Apply(c, Remove(alias)), IndexOf(c.accounts, alias);
    RemoveTakes(c, d, alias);
    forall other | other != alias
      ensures Lookup(d, other) == Lookup(c, other)
    {
      RemoveKeeps(c, d, k, other);
    }
    hide Lookup, Apply;
  }

  lemma RemovedIs(c: Config, alias: string)
    requires Ok(c)
    ensures var d, k := Apply(c, Remove(alias)), IndexOf(c.accounts, alias);
            && IsOneLess(c.accounts, d.accounts, k) && DistinctAliases(d.accounts) && (k == |c.accounts| ==> d == c)
            && d.currentAlias == if c.currentAlias != Some(alias) then c.currentAlias
                                 else if d.accounts == [] then None else Some(d.accounts[0].alias)
  {
    var rest, k := Without(c.accounts, alias), IndexOf(c.accounts, alias);
    WithoutIsOneLess(c.accounts, alias);
    OneLessIsDistinct(c.accounts, rest, k);
    hide Without, IndexOf, DistinctAliases;
    if k == |c.accounts| {
      assert rest == c.accounts;
    }
  }

  lemma RemoveKeeps(c: Config, d: Config, k: nat, other: string)
    requires IsOneLess(c.accounts, d.accounts, k) && DistinctAliases(d.accounts)
    requires k < |c.accounts| ==> c.accounts[k].alias != other
    ensures Lookup(d, other) == Lookup(c, other)
  {
    LookupIs(c, other);
    LookupIs(d, other);
    if Lookup(c, other).Some? {
      var i :| 0 <= i < |c.accounts| && c.accounts[i] == Lookup(c, other).value && c.accounts[i].alias == other;
      var j := if i < k then i else i - 1;
      assert d.accounts[j] == c.accounts[i];
      LookupAt(d, j);
    }
  }

  lemma RemoveTakes(c: Config, d: Config, alias: string)
    requires DistinctAliases(c.accounts) && IsOneLess(c.accounts, d.accounts, IndexOf(c.accounts, alias))
    ensures Lookup(d, alias) == None
  {
    LookupIs(d, alias);
    var k := IndexOf(c.accounts, alias);
    assert k < |c.accounts| ==> c.accounts[k].alias == alias;
  }

  /** A rename moves one account to a free alias, with everything else it holds, and the selection with it. */
  lemma RenameDoes(c: Config, from: string, to: string)
    requires Ok(c)
    ensures var d := Apply(c, Rename(from, to));
            if Lookup(c, from) == None || Lookup(c, to).Some? then d == c
            else
              && Lookup(d, from) == None && Lookup(d, to) == Some(Lookup(c, from).value.(alias := to))
              && (forall other | other != from && other != to :: Lookup(d, other) == Lookup(c, other))
              && |d.accounts| == |c.accounts|
              && d.currentAlias == if c.currentAlias == Some(from) then Some(to) else c.currentAlias
  {
    var d := Apply(c, Rename(from, to));
    RenamedOk(c, from, to);
    if Lookup(c, from).Some? && Lookup(c, to) == None {
      LookupIs(d, from);
      var k := IndexOf(c.accounts, from);
      assert d.accounts[k] == c.accounts[k].(alias := to);
      LookupAt(d, k);
      forall other | other != from && other != to
        ensures Lookup(d, other) == Lookup(c, other)
      {
        LookupIs(c, other);
        LookupIs(d, other);
        if Lookup(c, other).Some? {
          var i :| 0 <= i < |c.accounts| && c.accounts[i] == Lookup(c, other).value && c.accounts[i].alias == other;
          assert d.accounts[i] == c.accounts[i];
          LookupAt(d, i);
        }
      }
    }
  }

  /** A switch selects an alias that is there, and does nothing else. */
  lemma SwitchDoes(c: Config, alias: string)
    ensures Apply(c, Switch(alias)) == if Lookup(c, alias).Some? then c.(currentAlias := Some(alias)) else c
  {
  }

  // ----- the alias of a login

  /** `base`, then `base-2`, `base-3` and so on. */
  lemma CandidatesAre(base: string)
    ensures Candidate(base, 0) == base && Candidate(base, 1) == base + "-2" && Candidate(base, 2) == base + "-3"
    ensures Candidate(base, 9) == base + "-10"
    ensures forall k: nat | k > 0 :: Candidate(base, k) == base + "-" + Digits(k + 1)
  {
    assert Digits(2) == "2" && Digits(3) == "3" && Digits(10) == Digits(1) + "0" == "10";
    forall k: nat | k > 0
      ensures Candidate(base, k) == base + "-" + Digits(k + 1)
    {
      assert base + ("-" + Digits(k + 1)) == base + "-" + Digits(k + 1);
    }
    assert "-" + "2" == "-2" && "-" + "3" == "-3" && "-" + "10" == "-10";
  }

  /** The alias is free, and every candidate before it is taken. */
  ghost predicate IsFirstFree(c: Config, base: string, alias: string) {
    exists n: nat :: alias == Candidate(base, n) && Lookup(c, alias) == None
                     && forall j: nat | j < n :: Lookup(c, Candidate(base, j)).Some?
  }

  lemma FirstFreeIs(c: Config, base: string)
    ensures IsFirstFree(c, base, FirstFree(Aliases(c.accounts), base))
  {
    var existing := Aliases(c.accounts);
    var n := FreeFrom(existing, base, 0);
    HasIff(c.accounts, Candidate(base, n));
    forall j: nat | j < n
      ensures Lookup(c, Candidate(base, j)).Some?
    {
      HasIff(c.accounts, Candidate(base, j));
    }
  }

  /** The first account saved with this email. */
  ghost predicate IsFirstWith(accounts: seq<Account>, email: string, k: int) {
    0 <= k < |accounts| && accounts[k].email == email && forall i | 0 <= i < k :: accounts[i].email != email
  }

  ghost predicate KnowsEmail(c: Config, email: string) {
    exists k :: IsFirstWith(c.accounts, email, k)
  }

  lemma {:induction false} SameEmailIs(accounts: seq<Account>, email: string)
    ensures SameEmail(accounts, email) == None ==> forall k :: !IsFirstWith(accounts, email, k)
    ensures SameEmail(accounts, email).Some? ==>
              exists k :: IsFirstWith(accounts, email, k) && accounts[k] == SameEmail(accounts, email).value
  {
    if accounts != [] {
      if accounts[0].email == email {
        assert IsFirstWith(accounts, email, 0);
      } else {
        SameEmailIs(accounts[1..], email);
        if SameEmail(accounts[1..], email) == None {
          forall k
            ensures !IsFirstWith(accounts, email, k)
          {
            assert !IsFirstWith(accounts[1..], email, k - 1);
          }
        } else {
          var k :| IsFirstWith(accounts[1..], email, k) && accounts[1..][k] == SameEmail(accounts, email).value;
          assert IsFirstWith(accounts, email, k + 1) && accounts[k + 1] == SameEmail(accounts, email).value;
        }
      }
    }
  }

  /**
   * The alias a login saves under. A known email keeps its alias if the operator overwrites, and gets the first
   * free one from the alias given, else from the email, if not. A new email is `default` if it is the first
   * account; otherwise an alias that is given is used if it is free or overwritten, and avoided if not.
   */
  lemma LoginAliasIs(c: Config, l: Login)
    ensures var alias := LoginAlias(c, l);
            var given := l.alias.Some? && l.alias.value != "";
            if KnowsEmail(c, l.email) then
              if l.overwrite then exists k :: IsFirstWith(c.accounts, l.email, k) && alias == c.accounts[k].alias
              else IsFirstFree(c, if l.alias.Some? then l.alias.value else l.emailBase, alias)
            else if c.accounts == [] then alias == "default"
            else if given && Lookup(c, l.alias.value).Some? && l.overwrite then alias == l.alias.value
            else IsFirstFree(c, if given then l.alias.value else l.emailBase, alias)
  {
    hide IsFirstFree, FirstFree, Aliases, IsFirstWith;
    SameEmailIs(c.accounts, l.email);
    FirstFreeIs(c, l.emailBase);
    if l.alias.Some? {
      FirstFreeIs(c, l.alias.value);
    }
  }

  /** A login saves email and token under that alias. */
  lemma LoginDoes(c: Config, l: Login)
    requires Ok(c)
    ensures var d := Apply(c, LogIn(l));
            && Lookup(d, LoginAlias(c, l)) == Some(Account(LoginAlias(c, l), l.email, l.token))
            && (forall alias | alias != LoginAlias(c, l) :: Lookup(d, alias) == Lookup(c, alias))
            && d.currentAlias == if NoneIsCurrent(c) then Some(LoginAlias(c, l)) else c.currentAlias
  {
    SaveDoes(c, Account(LoginAlias(c, l), l.email, l.token));
    hide LoginAlias, Saved, Lookup;
  }
}
