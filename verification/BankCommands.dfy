/**
What each command of the bank does and when it goes through, said on the records before and after a posting under a
new key.
*/
module BankCommands {
  import opened Prelude
  import opened Bank

  // ---------------------------------------------------------------- records that are looked up

  predicate MemberIs(members: seq<Member>, id: Id, at: int) {
    0 <= at < |members| && members[at].id == id && forall k :: 0 <= k < at ==> members[k].id != id
  }

  predicate AccountIs(accounts: seq<Account>, id: Id, memberId: Id, at: int) {
    && 0 <= at < |accounts| && accounts[at].id == id && accounts[at].memberId == memberId
    && forall k :: 0 <= k < at ==> !(accounts[k].id == id && accounts[k].memberId == memberId)
  }

  predicate CardIs(cards: seq<Card>, id: Id, at: int) {
    0 <= at < |cards| && cards[at].id == id && forall k :: 0 <= k < at ==> cards[k].id != id
  }

  predicate HoldIs(holds: seq<Hold>, id: Id, at: int) {
    0 <= at < |holds| && holds[at].id == id && forall k :: 0 <= k < at ==> holds[k].id != id
  }

  predicate CaseIs(cases: seq<ServiceCase>, id: Id, memberId: Id, at: int) {
    && 0 <= at < |cases| && cases[at].id == id && cases[at].memberId == memberId
    && forall k :: 0 <= k < at ==> !(cases[k].id == id && cases[k].memberId == memberId)
  }

  /** An open account of a known member without restriction. */
  ghost predicate Usable(bank: Bank, memberId: Id, accountId: Id, a: Account) {
    && (exists at :: MemberIs(bank.members, memberId, at) && !bank.members[at].restricted)
    && (exists at :: AccountIs(bank.accounts, accountId, memberId, at) && bank.accounts[at] == a && a.open)
  }

  lemma {:induction false} FindsMember(members: seq<Member>, id: Id, at: int)
    requires MemberIs(members, id, at)
    ensures FindMember(members, id) == Some(members[at])
  {
    if at > 0 {
      assert members[0].id != id;
      FindsMember(members[1..], id, at - 1);
    }
  }

  lemma {:induction false} MemberAt(members: seq<Member>, id: Id)
    ensures FindMember(members, id).Some? ==>
              exists at :: MemberIs(members, id, at) && members[at] == FindMember(members, id).value
  {
    if members != [] {
      if members[0].id == id {
        assert MemberIs(members, id, 0);
      } else {
        MemberAt(members[1..], id);
        if FindMember(members, id).Some? {
          var at :| MemberIs(members[1..], id, at) && members[1..][at] == FindMember(members, id).value;
          assert members[at + 1] == members[1..][at];
          assert forall k :: 0 < k <= at ==> members[k] == members[1..][k - 1];
          assert MemberIs(members, id, at + 1);
        }
      }
    }
  }

  lemma {:induction false} FindsAccount(accounts: seq<Account>, id: Id, memberId: Id, at: int)
    requires AccountIs(accounts, id, memberId, at)
    ensures FindAccount(accounts, id, memberId) == Some(accounts[at])
  {
    if at > 0 {
      assert !(accounts[0].id == id && accounts[0].memberId == memberId);
      FindsAccount(accounts[1..], id, memberId, at - 1);
    }
  }

  lemma {:induction false} AccountAt(accounts: seq<Account>, id: Id, memberId: Id)
    ensures FindAccount(accounts, id, memberId).Some? ==>
              exists at :: AccountIs(accounts, id, memberId, at)
                           && accounts[at] == FindAccount(accounts, id, memberId).value
  {
    if accounts != [] {
      if accounts[0].id == id && accounts[0].memberId == memberId {
        assert AccountIs(accounts, id, memberId, 0);
      } else {
        AccountAt(accounts[1..], id, memberId);
        if FindAccount(accounts, id, memberId).Some? {
          var at :| AccountIs(accounts[1..], id, memberId, at)
                    && accounts[1..][at] == FindAccount(accounts, id, memberId).value;
          assert accounts[at + 1] == accounts[1..][at];
          assert forall k :: 0 < k <= at ==> accounts[k] == accounts[1..][k - 1];
          assert AccountIs(accounts, id, memberId, at + 1);
        }
      }
    }
  }

  lemma {:induction false} CardFound(cards: seq<Card>, id: Id, at: int)
    ensures CardIs(cards, id, at) <==> at == CardAt(cards, id) && at < |cards|
  {
    if cards != [] && cards[0].id != id && at > 0 {
      CardFound(cards[1..], id, at - 1);
      assert at < |cards| ==> forall k :: 0 < k < at ==> cards[k] == cards[1..][k - 1];
    }
  }

  lemma {:induction false} HoldFound(holds: seq<Hold>, id: Id, at: int)
    ensures HoldIs(holds, id, at) <==> at == HoldAt(holds, id) && at < |holds|
  {
    if holds != [] && holds[0].id != id && at > 0 {
      HoldFound(holds[1..], id, at - 1);
      assert at < |holds| ==> forall k :: 0 < k < at ==> holds[k] == holds[1..][k - 1];
    }
  }

  lemma {:induction false} CaseFound(cases: seq<ServiceCase>, id: Id, memberId: Id, at: int)
    ensures CaseIs(cases, id, memberId, at) <==> at == CaseAt(cases, id, memberId) && at < |cases|
  {
    if cases != [] && !(cases[0].id == id && cases[0].memberId == memberId) && at > 0 {
      CaseFound(cases[1..], id, memberId, at - 1);
      assert at < |cases| ==> forall k :: 0 < k < at ==> cases[k] == cases[1..][k - 1];
    }
  }

  lemma UsableIsOwned(bank: Bank, memberId: Id, accountId: Id, a: Account)
    ensures Owned(bank, memberId, accountId) == Ok(a) <==> Usable(bank, memberId, accountId, a)
  {
    if Usable(bank, memberId, accountId, a) {
      var m :| MemberIs(bank.members, memberId, m) && !bank.members[m].restricted;
      FindsMember(bank.members, memberId, m);
      var at :| AccountIs(bank.accounts, accountId, memberId, at) && bank.accounts[at] == a && a.open;
      FindsAccount(bank.accounts, accountId, memberId, at);
    }
    if Owned(bank, memberId, accountId) == Ok(a) {
      MemberAt(bank.members, memberId);
      AccountAt(bank.accounts, accountId, memberId);
    }
  }

  // ---------------------------------------------------------------- what every posting has in common

  /** Between eight and a hundred and sixty characters once trimmed. */
  predicate Stated(text: string) {
    8 <= |Trim(text)| <= 160
  }

  /** Someone with the permission to change things posts, under a well-formed key, on the state that was reviewed. */
  predicate Admitted(bank: Bank, key: string, revision: int) {
    bank.role != Inquiry && KeyFormat(key) && revision == bank.revision
  }

  predicate Shows(receipt: Receipt, line: string, value: Shown) {
    (line, value) in receipt.details
  }

  /** One more revision, one more entry of the journal and one more completed key, for this receipt. */
  predicate Noted(bank: Bank, next: Bank, c: Command, key: string, receipt: Receipt, title: string) {
    && receipt.title == title && receipt.reference == Numbered(bank.tenant, bank.revision + 1)
    && Shows(receipt, "Member ID", Text(c.memberId)) && Shows(receipt, "Business date", Text(bank.businessDate))
    && next.revision == bank.revision + 1
    && next.journal == bank.journal + [Entry(receipt.reference, title, c.memberId, bank.role, bank.businessDate)]
    && next.completed == bank.completed[key := Done(c, receipt)]
    && next == bank.(revision := next.revision, journal := next.journal, completed := next.completed,
                     postings := next.postings, holds := next.holds, cards := next.cards, cases := next.cases)
  }

  /** What was posted and noted is what the command did. */
  predicate Carries(bank: Bank, c: Command, key: string, e: Effect, next: Bank, receipt: Receipt) {
    && Noted(bank, next, c, key, receipt, e.title)
    && next.postings == e.bank.postings && next.holds == e.bank.holds
    && next.cards == e.bank.cards && next.cases == e.bank.cases
    && forall line <- e.details :: line in receipt.details
  }

  lemma PostedAs(bank: Bank, c: Command, key: string, revision: int)
    requires key !in bank.completed
    ensures
      var done, e := Execute(bank, c, key, revision), Apply(bank, c);
      && (done.Ok? <==> Admitted(bank, key, revision) && e.Ok?)
      && (done.Ok? ==> Carries(bank, c, key, e.value, done.value.0, done.value.1))
  {
    if Execute(bank, c, key, revision).Ok? {
      var receipt := Execute(bank, c, key, revision).value.1;
      var n := |Apply(bank, c).value.details|;
      assert receipt.details[0] == ("Member ID", Text(c.memberId));
      assert receipt.details[n + 1] == ("Business date", Text(bank.businessDate));
    }
  }

  // ---------------------------------------------------------------- transfers

  ghost predicate Transferable(bank: Bank, c: Command, source: Account, target: Account, cents: nat)
    requires c.Transfer?
  {
    && Usable(bank, c.memberId, c.source, source) && Usable(bank, c.memberId, c.target, target)
    && c.source != c.target && source.kind != AutoLoan && target.kind != AutoLoan
    && ParseMoney(c.amount) == Ok(cents) && cents <= Available(bank, source) && Stated(c.memo)
  }

  /** What a transfer moves in or out of an account. */
  function Moved(c: Command, cents: nat, id: Id): int
    requires c.Transfer?
  {
    (if id == c.target then cents else 0) - (if id == c.source then cents else 0)
  }

  /** The amount has left the one account and arrived in the other, and the receipt says so. */
  ghost predicate Transferred(bank: Bank, c: Command, key: string, source: Account, cents: nat, next: Bank,
                              receipt: Receipt)
    requires c.Transfer?
  {
    && Noted(bank, next, c, key, receipt, "Internal transfer posted")
    && next.holds == bank.holds && next.cards == bank.cards && next.cases == bank.cases
    && |next.postings| == |bank.postings| + 2 && bank.postings <= next.postings
    && (forall a: Account :: Ledger(next, a) == Ledger(bank, a) + Moved(c, cents, a.id))
    && (forall a: Account :: Available(next, a) == Available(bank, a) + Moved(c, cents, a.id))
    && Shows(receipt, "Debit account", Text(c.source)) && Shows(receipt, "Credit account", Text(c.target))
    && Shows(receipt, "Amount", Money(cents)) && Shows(receipt, "Purpose", Text(Trim(c.memo)))
    && Shows(receipt, "Source available", Money(Available(bank, source) - cents))
  }

  /**
  A transfer goes through exactly between two different open deposit accounts of a member without restriction, for
  an amount the source has available, with a purpose; it takes that amount from the source and gives it to the
  target, and leaves every other account alone.
  */
  lemma TransfersExactly(bank: Bank, c: Command, key: string, revision: int)
    requires c.Transfer? && key !in bank.completed
    ensures
      var done := Execute(bank, c, key, revision);
      && (done.Ok? <==>
            Admitted(bank, key, revision)
            && exists source, target, cents :: Transferable(bank, c, source, target, cents))
      && (done.Ok? ==>
            forall source, target, cents | Transferable(bank, c, source, target, cents) ::
              Transferred(bank, c, key, source, cents, done.value.0, done.value.1))
  {
    PostedAs(bank, c, key, revision);
    TransferApplies(bank, c);
    var done := Execute(bank, c, key, revision);
    if done.Ok? {
      forall source, target, cents | Transferable(bank, c, source, target, cents)
        ensures Transferred(bank, c, key, source, cents, done.value.0, done.value.1)
      {
        TransferBody(bank, c, source, target, cents);
        TransferMoves(bank, c, key, source, cents, Apply(bank, c).value, done.value.0, done.value.1);
      }
    }
  }

  lemma TransferApplies(bank: Bank, c: Command)
    requires c.Transfer?
    ensures Apply(bank, c).Ok? <==> exists source, target, cents :: Transferable(bank, c, source, target, cents)
  {
    if Apply(bank, c).Ok? {
      var source, target := Owned(bank, c.memberId, c.source).value, Owned(bank, c.memberId, c.target).value;
      UsableIsOwned(bank, c.memberId, c.source, source);
      UsableIsOwned(bank, c.memberId, c.target, target);
      assert Transferable(bank, c, source, target, ParseMoney(c.amount).value);
    }
    if exists source, target, cents :: Transferable(bank, c, source, target, cents) {
      var source, target, cents :| Transferable(bank, c, source, target, cents);
      UsableIsOwned(bank, c.memberId, c.source, source);
      UsableIsOwned(bank, c.memberId, c.target, target);
    }
  }

  /** The debit and the credit, and the lines about them. */
  predicate TransferEffect(bank: Bank, c: Command, source: Account, cents: nat, e: Effect)
    requires c.Transfer?
  {
    var n := |bank.postings|;
    && e.title == "Internal transfer posted" && e.bank == bank.(postings := e.bank.postings)
    && |e.bank.postings| == n + 2 && e.bank.postings == bank.postings + [e.bank.postings[n], e.bank.postings[n + 1]]
    && Posts(e.bank.postings[n], c.source, -(cents as int)) && Posts(e.bank.postings[n + 1], c.target, cents)
    && e.details == [("Debit account", Text(c.source)), ("Credit account", Text(c.target)), ("Amount", Money(cents)),
                     ("Purpose", Text(Trim(c.memo))), ("Source available", Money(Available(e.bank, source)))]
  }

  lemma TransferBody(bank: Bank, c: Command, source: Account, target: Account, cents: nat)
    requires c.Transfer? && Transferable(bank, c, source, target, cents)
    ensures Apply(bank, c).Ok? && TransferEffect(bank, c, source, cents, Apply(bank, c).value)
  {
    UsableIsOwned(bank, c.memberId, c.source, source);
    UsableIsOwned(bank, c.memberId, c.target, target);
  }

  predicate Posts(p: Posting, accountId: Id, cents: int) {
    p.accountId == accountId && p.cents == cents && p.posted
  }

  lemma TransferBalances(bank: Bank, c: Command, cents: nat, debit: Posting, credit: Posting, next: Bank, a: Account)
    requires c.Transfer? && Posts(debit, c.source, -(cents as int)) && Posts(credit, c.target, cents)
    requires next.postings == bank.postings + [debit, credit] && next.holds == bank.holds
    ensures Ledger(next, a) == Ledger(bank, a) + Moved(c, cents, a.id)
    ensures Available(next, a) == Available(bank, a) + Moved(c, cents, a.id)
  {
    PostedTwo(bank.postings, debit, credit, a.id);
  }

  /** What the debit and the credit do to every account, and the lines of the receipt. */
  lemma TransferMoves(bank: Bank, c: Command, key: string, source: Account, cents: nat, e: Effect, next: Bank,
                      receipt: Receipt)
    requires c.Transfer? && TransferEffect(bank, c, source, cents, e) && Carries(bank, c, key, e, next, receipt)
    requires source.id == c.source != c.target
    ensures Transferred(bank, c, key, source, cents, next, receipt)
  {
    var n := |bank.postings|;
    forall a: Account
      ensures Ledger(next, a) == Ledger(bank, a) + Moved(c, cents, a.id)
      ensures Available(next, a) == Available(bank, a) + Moved(c, cents, a.id)
    {
      TransferBalances(bank, c, cents, next.postings[n], next.postings[n + 1], next, a);
    }
    assert Available(e.bank, source) == Available(next, source);
    TransferLines(c, cents, Available(next, source), e.details, receipt);
  }

  lemma TransferLines(c: Command, cents: nat, left: int, details: seq<(string, Shown)>, receipt: Receipt)
    requires c.Transfer?
    requires details == [("Debit account", Text(c.source)), ("Credit account", Text(c.target)),
                         ("Amount", Money(cents)), ("Purpose", Text(Trim(c.memo))), ("Source available", Money(left))]
    requires forall line <- details :: line in receipt.details
    ensures Shows(receipt, "Debit account", Text(c.source)) && Shows(receipt, "Credit account", Text(c.target))
    ensures Shows(receipt, "Amount", Money(cents)) && Shows(receipt, "Purpose", Text(Trim(c.memo)))
    ensures Shows(receipt, "Source available", Money(left))
  {
    Lines(details, receipt);
  }

  /** Every line of the details can be named by its place. */
  lemma Lines(details: seq<(string, Shown)>, receipt: Receipt)
    requires forall line <- details :: line in receipt.details
    ensures forall k :: 0 <= k < |details| ==> Shows(receipt, details[k].0, details[k].1)
  {
    forall k | 0 <= k < |details| ensures Shows(receipt, details[k].0, details[k].1) {
      assert details[k] in details;
    }
  }

  // ---------------------------------------------------------------- cards

  ghost predicate Switchable(bank: Bank, c: Command, at: int)
    requires c.SetCard?
  {
    && CardIs(bank.cards, c.cardId, at)
    && (exists a :: Usable(bank, c.memberId, bank.cards[at].accountId, a)) && Stated(c.reason)
    && bank.cards[at].status != Expired && bank.cards[at].status != c.desired
  }

  ghost predicate Switched(bank: Bank, c: Command, key: string, at: int, next: Bank, receipt: Receipt)
    requires c.SetCard? && 0 <= at < |bank.cards|
  {
    var card := bank.cards[at];
    && Noted(bank, next, c, key, receipt, if c.desired.Active? then "Card unlocked" else "Card temporarily locked")
    && next.postings == bank.postings && next.holds == bank.holds && next.cases == bank.cases
    && |next.cards| == |bank.cards| && next.cards[at] == card.(status := c.desired)
    && (forall k :: 0 <= k < |bank.cards| && k != at ==> next.cards[k] == bank.cards[k])
    && Shows(receipt, "Card ID", Text(c.cardId)) && Shows(receipt, "Card last 4", Text(card.suffix))
    && Shows(receipt, "Cardholder", Text(card.holder)) && Shows(receipt, "Lock status", Lock(c.desired))
    && Shows(receipt, "Reason", Text(Trim(c.reason)))
  }

  lemma CardApplies(bank: Bank, c: Command)
    requires c.SetCard?
    ensures Apply(bank, c).Ok? <==> exists at :: Switchable(bank, c, at)
  {
    var found := CardAt(bank.cards, c.cardId);
    if found < |bank.cards| {
      var owner := Owned(bank, c.memberId, bank.cards[found].accountId);
      CardFound(bank.cards, c.cardId, found);
      if owner.Ok? {
        UsableIsOwned(bank, c.memberId, bank.cards[found].accountId, owner.value);
      }
    }
    if exists at :: Switchable(bank, c, at) {
      var at :| Switchable(bank, c, at);
      CardFound(bank.cards, c.cardId, at);
      var a :| Usable(bank, c.memberId, bank.cards[at].accountId, a);
      UsableIsOwned(bank, c.memberId, bank.cards[at].accountId, a);
    } else if Apply(bank, c).Ok? {
      assert Switchable(bank, c, found);
    }
  }

  /** A card is locked or unlocked exactly when it is there, has not expired and is in the other state. */
  lemma CardsSwitchExactly(bank: Bank, c: Command, key: string, revision: int)
    requires c.SetCard? && key !in bank.completed
    ensures
      var done := Execute(bank, c, key, revision);
      && (done.Ok? <==> Admitted(bank, key, revision) && exists at :: Switchable(bank, c, at))
      && (done.Ok? ==> forall at | Switchable(bank, c, at) ::
                         Switched(bank, c, key, at, done.value.0, done.value.1))
  {
    PostedAs(bank, c, key, revision);
    CardApplies(bank, c);
    var done := Execute(bank, c, key, revision);
    if done.Ok? {
      Lines(Apply(bank, c).value.details, done.value.1);
      forall at | Switchable(bank, c, at)
        ensures Switched(bank, c, key, at, done.value.0, done.value.1)
      {
        CardFound(bank.cards, c.cardId, at);
      }
    }
  }

  // ---------------------------------------------------------------- holds

  ghost predicate Holdable(bank: Bank, c: Command, a: Account, cents: nat)
    requires c.PlaceHold?
  {
    && bank.role == Supervisor && Usable(bank, c.memberId, c.accountId, a) && a.kind != AutoLoan
    && ParseMoney(c.amount) == Ok(cents) && cents <= Available(bank, a) && Stated(c.reason)
  }

  ghost predicate Held(bank: Bank, c: Command, key: string, a: Account, cents: nat, next: Bank, receipt: Receipt)
    requires c.PlaceHold?
  {
    && Noted(bank, next, c, key, receipt, "Administrative hold placed")
    && next.postings == bank.postings && next.cards == bank.cards && next.cases == bank.cases
    && next.holds == bank.holds + [Hold(receipt.reference, c.accountId, cents, Trim(c.reason), true)]
    && (forall b: Account :: Ledger(next, b) == Ledger(bank, b))
    && (forall b: Account :: Available(next, b) == Available(bank, b) - (if b.id == c.accountId then cents else 0))
    && Shows(receipt, "Account", Text(c.accountId)) && Shows(receipt, "Amount", Money(cents))
    && Shows(receipt, "Reason", Text(Trim(c.reason)))
    && Shows(receipt, "Available balance", Money(Available(bank, a) - cents))
  }

  lemma HoldApplies(bank: Bank, c: Command)
    requires c.PlaceHold?
    ensures Apply(bank, c).Ok? <==> exists a, cents :: Holdable(bank, c, a, cents)
  {
    if Apply(bank, c).Ok? {
      var a := Owned(bank, c.memberId, c.accountId).value;
      UsableIsOwned(bank, c.memberId, c.accountId, a);
      assert Holdable(bank, c, a, ParseMoney(c.amount).value);
    }
    if exists a, cents :: Holdable(bank, c, a, cents) {
      var a, cents :| Holdable(bank, c, a, cents);
      UsableIsOwned(bank, c.memberId, c.accountId, a);
    }
  }

  predicate HoldEffect(bank: Bank, c: Command, a: Account, cents: nat, e: Effect)
    requires c.PlaceHold?
  {
    && e.title == "Administrative hold placed" && e.bank == bank.(holds := e.bank.holds)
    && e.bank.holds == bank.holds + [Hold(Numbered(bank.tenant, bank.revision + 1), c.accountId, cents,
                                          Trim(c.reason), true)]
    && e.details == [("Account", Text(c.accountId)), ("Amount", Money(cents)), ("Reason", Text(Trim(c.reason))),
                     ("Available balance", Money(Available(e.bank, a)))]
  }

  lemma HoldBody(bank: Bank, c: Command, a: Account, cents: nat)
    requires c.PlaceHold? && Holdable(bank, c, a, cents)
    ensures Apply(bank, c).Ok? && HoldEffect(bank, c, a, cents, Apply(bank, c).value)
  {
    UsableIsOwned(bank, c.memberId, c.accountId, a);
  }

  lemma HoldBalances(bank: Bank, h: Hold, next: Bank, b: Account)
    requires next.postings == bank.postings && next.holds == bank.holds + [h] && h.active
    ensures Ledger(next, b) == Ledger(bank, b)
    ensures Available(next, b) == Available(bank, b) - (if b.id == h.accountId then h.cents else 0)
  {
    HeldOne(bank.holds, h, b.id);
  }

  lemma HoldLines(c: Command, cents: nat, left: int, details: seq<(string, Shown)>, receipt: Receipt)
    requires c.PlaceHold?
    requires details == [("Account", Text(c.accountId)), ("Amount", Money(cents)), ("Reason", Text(Trim(c.reason))),
                         ("Available balance", Money(left))]
    requires forall line <- details :: line in receipt.details
    ensures Shows(receipt, "Account", Text(c.accountId)) && Shows(receipt, "Amount", Money(cents))
    ensures Shows(receipt, "Reason", Text(Trim(c.reason))) && Shows(receipt, "Available balance", Money(left))
  {
    Lines(details, receipt);
  }

  lemma HoldBlocks(bank: Bank, c: Command, key: string, a: Account, cents: nat, e: Effect, next: Bank,
                   receipt: Receipt)
    requires c.PlaceHold? && HoldEffect(bank, c, a, cents, e) && Carries(bank, c, key, e, next, receipt)
    requires a.id == c.accountId
    ensures Held(bank, c, key, a, cents, next, receipt)
  {
    forall b: Account
      ensures Ledger(next, b) == Ledger(bank, b)
      ensures Available(next, b) == Available(bank, b) - (if b.id == c.accountId then cents else 0)
    {
      HoldBalances(bank, next.holds[|bank.holds|], next, b);
    }
    assert Available(e.bank, a) == Available(next, a);
    HoldLines(c, cents, Available(next, a), e.details, receipt);
  }

  /** A supervisor blocks an amount that a deposit account has available; only what it has available falls. */
  lemma HoldsExactly(bank: Bank, c: Command, key: string, revision: int)
    requires c.PlaceHold? && key !in bank.completed
    ensures
      var done := Execute(bank, c, key, revision);
      && (done.Ok? <==> Admitted(bank, key, revision) && exists a, cents :: Holdable(bank, c, a, cents))
      && (done.Ok? ==> forall a, cents | Holdable(bank, c, a, cents) ::
                         Held(bank, c, key, a, cents, done.value.0, done.value.1))
  {
    PostedAs(bank, c, key, revision);
    HoldApplies(bank, c);
    if Execute(bank, c, key, revision).Ok? {
      forall a, cents | Holdable(bank, c, a, cents)
        ensures Held(bank, c, key, a, cents, Execute(bank, c, key, revision).value.0,
                     Execute(bank, c, key, revision).value.1)
      {
        HoldBody(bank, c, a, cents);
        HoldBlocks(bank, c, key, a, cents, Apply(bank, c).value, Execute(bank, c, key, revision).value.0,
                   Execute(bank, c, key, revision).value.1);
      }
    }
  }

  ghost predicate Releasable(bank: Bank, c: Command, at: int, a: Account)
    requires c.ReleaseHold?
  {
    && bank.role == Supervisor && HoldIs(bank.holds, c.holdId, at) && bank.holds[at].active
    && Usable(bank, c.memberId, bank.holds[at].accountId, a) && Stated(c.reason)
  }

  ghost predicate Released(bank: Bank, c: Command, key: string, at: int, a: Account, next: Bank, receipt: Receipt)
    requires c.ReleaseHold? && 0 <= at < |bank.holds|
  {
    var hold := bank.holds[at];
    && Noted(bank, next, c, key, receipt, "Hold released")
    && next.postings == bank.postings && next.cards == bank.cards && next.cases == bank.cases
    && next.holds == bank.holds[at := hold.(active := false)]
    && (forall b: Account :: Ledger(next, b) == Ledger(bank, b))
    && (forall b: Account ::
          Available(next, b) == Available(bank, b) + (if b.id == hold.accountId then hold.cents else 0))
    && Shows(receipt, "Hold reference", Text(c.holdId)) && Shows(receipt, "Released amount", Money(hold.cents))
    && Shows(receipt, "Reason", Text(Trim(c.reason)))
    && Shows(receipt, "Available balance", Money(Available(bank, a) + hold.cents))
  }

  lemma ReleaseApplies(bank: Bank, c: Command)
    requires c.ReleaseHold?
    ensures Apply(bank, c).Ok? <==> exists at, a :: Releasable(bank, c, at, a)
  {
    if Apply(bank, c).Ok? {
      var at := HoldAt(bank.holds, c.holdId);
      HoldFound(bank.holds, c.holdId, at);
      var a := Owned(bank, c.memberId, bank.holds[at].accountId).value;
      UsableIsOwned(bank, c.memberId, bank.holds[at].accountId, a);
      assert Releasable(bank, c, at, a);
    }
    if exists at, a :: Releasable(bank, c, at, a) {
      var at, a :| Releasable(bank, c, at, a);
      HoldFound(bank.holds, c.holdId, at);
      UsableIsOwned(bank, c.memberId, bank.holds[at].accountId, a);
    }
  }

  lemma ReleaseFrees(bank: Bank, c: Command, key: string, revision: int, at: int, a: Account)
    requires c.ReleaseHold? && key !in bank.completed && Releasable(bank, c, at, a)
    requires Execute(bank, c, key, revision).Ok?
    ensures
      var done := Execute(bank, c, key, revision).value;
      Released(bank, c, key, at, a, done.0, done.1)
  {
    var (next, receipt) := Execute(bank, c, key, revision).value;
    PostedAs(bank, c, key, revision);
    HoldFound(bank.holds, c.holdId, at);
    UsableIsOwned(bank, c.memberId, bank.holds[at].accountId, a);
    var e := Apply(bank, c).value;
    Lines(e.details, receipt);
    forall b: Account
      ensures Ledger(next, b) == Ledger(bank, b)
      ensures Available(next, b)
           == Available(bank, b) + (if b.id == bank.holds[at].accountId then bank.holds[at].cents else 0)
    {
      HeldReleased(bank.holds, at, b.id);
    }
    assert Available(e.bank, a) == Available(next, a);
  }

  /** A supervisor releases a hold that is active; its amount is available again and nothing else changes. */
  lemma ReleasesExactly(bank: Bank, c: Command, key: string, revision: int)
    requires c.ReleaseHold? && key !in bank.completed
    ensures
      var done := Execute(bank, c, key, revision);
      && (done.Ok? <==> Admitted(bank, key, revision) && exists at, a :: Releasable(bank, c, at, a))
      && (done.Ok? ==> forall at, a | Releasable(bank, c, at, a) ::
                         Released(bank, c, key, at, a, done.value.0, done.value.1))
  {
    PostedAs(bank, c, key, revision);
    ReleaseApplies(bank, c);
    if Execute(bank, c, key, revision).Ok? {
      forall at, a | Releasable(bank, c, at, a)
        ensures Released(bank, c, key, at, a, Execute(bank, c, key, revision).value.0,
                         Execute(bank, c, key, revision).value.1)
      {
        ReleaseFrees(bank, c, key, revision, at, a);
      }
    }
  }

  // ---------------------------------------------------------------- quotes

  /** The date is so many days after the business date, at most thirty. */
  predicate DaysAhead(bank: Bank, date: string, days: int) {
    && ParseDate(date).Ok? && ParseDate(bank.businessDate).Ok? && 0 <= days <= 30
    && ParseDate(date).value == ParseDate(bank.businessDate).value + days
  }

  ghost predicate Quotable(bank: Bank, c: Command, a: Account, days: int)
    requires c.Quote?
  {
    Usable(bank, c.memberId, c.accountId, a) && a.kind == AutoLoan && DaysAhead(bank, c.date, days)
  }

  /** The quote shows what is owed, and its parts, and moves nothing. */
  ghost predicate Quoted(bank: Bank, c: Command, key: string, a: Account, days: int, next: Bank, receipt: Receipt)
    requires c.Quote?
  {
    var interest := Interest(Ledger(bank, a), a.aprBps, days);
    && Noted(bank, next, c, key, receipt, "Payoff quote issued")
    && next.postings == bank.postings && next.holds == bank.holds && next.cards == bank.cards
    && next.cases == bank.cases
    && Shows(receipt, "Loan account", Text(c.accountId)) && Shows(receipt, "Principal", Money(Ledger(bank, a)))
    && Shows(receipt, "Accrued interest", Money(a.accrued)) && Shows(receipt, "Additional interest", Money(interest))
    && Shows(receipt, "Payoff amount", Money(Ledger(bank, a) + a.accrued + interest))
    && Shows(receipt, "Good through", Text(c.date))
  }

  lemma QuoteApplies(bank: Bank, c: Command)
    requires c.Quote?
    ensures Apply(bank, c).Ok? <==> exists a, days :: Quotable(bank, c, a, days)
  {
    if Apply(bank, c).Ok? {
      var a := Owned(bank, c.memberId, c.accountId).value;
      UsableIsOwned(bank, c.memberId, c.accountId, a);
      assert Quotable(bank, c, a, ParseDate(c.date).value - ParseDate(bank.businessDate).value);
    }
    if exists a, days :: Quotable(bank, c, a, days) {
      var a, days :| Quotable(bank, c, a, days);
      UsableIsOwned(bank, c.memberId, c.accountId, a);
    }
  }

  lemma PayoffShown(bank: Bank, memberId: Id, accountId: Id, date: string, a: Account, days: int)
    requires Usable(bank, memberId, accountId, a) && a.kind == AutoLoan && DaysAhead(bank, date, days)
    ensures
      var interest := Interest(Ledger(bank, a), a.aprBps, days);
      PayoffOf(bank, memberId, accountId, date)
        == Ok(Payoff(Ledger(bank, a), a.accrued, interest, Ledger(bank, a) + a.accrued + interest, days))
  {
    UsableIsOwned(bank, memberId, accountId, a);
    assert ParseDate(date).value - ParseDate(bank.businessDate).value == days;
  }

  predicate QuoteEffect(bank: Bank, c: Command, q: Payoff, e: Effect)
    requires c.Quote?
  {
    e == Effect(bank, "Payoff quote issued",
                [("Loan account", Text(c.accountId)), ("Principal", Money(q.principal)),
                 ("Accrued interest", Money(q.accrued)), ("Additional interest", Money(q.interest)),
                 ("Payoff amount", Money(q.total)), ("Good through", Text(c.date))])
  }

  lemma QuoteBody(bank: Bank, c: Command, q: Payoff)
    requires c.Quote? && PayoffOf(bank, c.memberId, c.accountId, c.date) == Ok(q)
    ensures Apply(bank, c).Ok? && QuoteEffect(bank, c, q, Apply(bank, c).value)
  {
  }

  lemma QuoteShows(bank: Bank, c: Command, key: string, a: Account, days: int, q: Payoff, e: Effect, next: Bank,
                   receipt: Receipt)
    requires c.Quote? && QuoteEffect(bank, c, q, e) && Carries(bank, c, key, e, next, receipt)
    requires
      var interest := Interest(Ledger(bank, a), a.aprBps, days);
      q == Payoff(Ledger(bank, a), a.accrued, interest, Ledger(bank, a) + a.accrued + interest, days)
    ensures Quoted(bank, c, key, a, days, next, receipt)
  {
    QuoteLines(c, q, e.details, receipt);
  }

  lemma QuoteLines(c: Command, q: Payoff, details: seq<(string, Shown)>, receipt: Receipt)
    requires c.Quote?
    requires details == [("Loan account", Text(c.accountId)), ("Principal", Money(q.principal)),
                         ("Accrued interest", Money(q.accrued)), ("Additional interest", Money(q.interest)),
                         ("Payoff amount", Money(q.total)), ("Good through", Text(c.date))]
    requires forall line <- details :: line in receipt.details
    ensures Shows(receipt, "Loan account", Text(c.accountId)) && Shows(receipt, "Principal", Money(q.principal))
    ensures Shows(receipt, "Accrued interest", Money(q.accrued))
    ensures Shows(receipt, "Additional interest", Money(q.interest)) && Shows(receipt, "Payoff amount", Money(q.total))
    ensures Shows(receipt, "Good through", Text(c.date))
  {
    Lines(details, receipt);
  }

  /** A loan is quoted for a day up to thirty days after the business date, with the interest of just these days. */
  lemma QuotesExactly(bank: Bank, c: Command, key: string, revision: int)
    requires c.Quote? && key !in bank.completed
    ensures
      var done := Execute(bank, c, key, revision);
      && (done.Ok? <==> Admitted(bank, key, revision) && exists a, days :: Quotable(bank, c, a, days))
      && (done.Ok? ==> forall a, days | Quotable(bank, c, a, days) ::
                         Quoted(bank, c, key, a, days, done.value.0, done.value.1))
  {
    PostedAs(bank, c, key, revision);
    QuoteApplies(bank, c);
    if Execute(bank, c, key, revision).Ok? {
      forall a, days | Quotable(bank, c, a, days)
        ensures Quoted(bank, c, key, a, days, Execute(bank, c, key, revision).value.0,
                       Execute(bank, c, key, revision).value.1)
      {
        PayoffShown(bank, c.memberId, c.accountId, c.date, a, days);
        var q := PayoffOf(bank, c.memberId, c.accountId, c.date).value;
        QuoteBody(bank, c, q);
        QuoteShows(bank, c, key, a, days, q, Apply(bank, c).value, Execute(bank, c, key, revision).value.0,
                   Execute(bank, c, key, revision).value.1);
      }
    }
  }

  function Dated(year: nat, month: nat, day: nat): string {
    PadStart(Decimal(year), 4) + "-" + PadStart(Decimal(month), 2) + "-" + PadStart(Decimal(day), 2)
  }

  lemma PaddedLength(n: nat, width: nat, power: nat)
    requires n < power && width >= 1 && power == Power10(width)
    ensures |PadStart(Decimal(n), width)| == width
  {
    DecimalLength(n, width, power);
  }

  /** A date that is written out is read back as its day, and a day the calendar does not have is refused. */
  lemma DatesRoundTrip(year: nat, month: nat, day: nat)
    requires year < 10000 && month < 100 && day < 100
    ensures ParseDate(Dated(year, month, day))
            == if Calendar(year, month, day) then Ok(DayNumber(year, month, day)) else Err("invalid_date")
  {
    var y, m, d := PadStart(Decimal(year), 4), PadStart(Decimal(month), 2), PadStart(Decimal(day), 2);
    assert Power10(2) == 100 && Power10(4) == 10000;
    PaddedLength(year, 4, 10000);
    PaddedLength(month, 2, 100);
    PaddedLength(day, 2, 100);
    PaddedNumber(year, 4);
    PaddedNumber(month, 2);
    PaddedNumber(day, 2);
    var text := Dated(year, month, day);
    assert text[..4] == y && text[5..7] == m && text[8..] == d && text[4] == '-' && text[7] == '-';
  }

  // ---------------------------------------------------------------- cases

  ghost predicate Fileable(bank: Bank, c: Command)
    requires c.OpenCase?
  {
    && (exists a :: Usable(bank, c.memberId, c.accountId, a)) && Stated(c.subject)
    && c.category in ["Transaction inquiry", "Account maintenance", "Card inquiry"]
  }

  predicate Filed(bank: Bank, c: Command, key: string, next: Bank, receipt: Receipt)
    requires c.OpenCase?
  {
    && Noted(bank, next, c, key, receipt, "Service case opened")
    && next.postings == bank.postings && next.holds == bank.holds && next.cards == bank.cards
    && next.cases == bank.cases + [ServiceCase(receipt.reference, c.memberId, c.accountId, c.category, Trim(c.subject),
                                               true, "")]
    && Shows(receipt, "Case ID", Text(receipt.reference)) && Shows(receipt, "Account", Text(c.accountId))
    && Shows(receipt, "Category", Text(c.category)) && Shows(receipt, "Request summary", Text(Trim(c.subject)))
    && Shows(receipt, "Status", Text("Open"))
  }

  /** A case is opened with what was stated, for one of three categories, under the receipt's own reference. */
  lemma CasesOpenExactly(bank: Bank, c: Command, key: string, revision: int)
    requires c.OpenCase? && key !in bank.completed
    ensures
      var done := Execute(bank, c, key, revision);
      && (done.Ok? <==> Admitted(bank, key, revision) && Fileable(bank, c))
      && (done.Ok? ==> Filed(bank, c, key, done.value.0, done.value.1))
  {
    PostedAs(bank, c, key, revision);
    var done, owner := Execute(bank, c, key, revision), Owned(bank, c.memberId, c.accountId);
    if owner.Ok? {
      UsableIsOwned(bank, c.memberId, c.accountId, owner.value);
    }
    if exists a :: Usable(bank, c.memberId, c.accountId, a) {
      var a :| Usable(bank, c.memberId, c.accountId, a);
      UsableIsOwned(bank, c.memberId, c.accountId, a);
    }
    if done.Ok? {
      Lines(Apply(bank, c).value.details, done.value.1);
    }
  }

  ghost predicate Resolvable(bank: Bank, c: Command, at: int)
    requires c.Resolve?
  {
    && CaseIs(bank.cases, c.caseId, c.memberId, at) && bank.cases[at].open
    && (exists a :: Usable(bank, c.memberId, bank.cases[at].accountId, a)) && Stated(c.resolution)
  }

  predicate Resolved(bank: Bank, c: Command, key: string, at: int, next: Bank, receipt: Receipt)
    requires c.Resolve? && 0 <= at < |bank.cases|
  {
    && Noted(bank, next, c, key, receipt, "Service case resolved")
    && next.postings == bank.postings && next.holds == bank.holds && next.cards == bank.cards
    && next.cases == bank.cases[at := bank.cases[at].(open := false, resolution := Trim(c.resolution))]
    && Shows(receipt, "Case ID", Text(c.caseId)) && Shows(receipt, "Status", Text("Resolved"))
    && Shows(receipt, "Resolution", Text(Trim(c.resolution)))
  }

  lemma ResolveApplies(bank: Bank, c: Command)
    requires c.Resolve?
    ensures Apply(bank, c).Ok? <==> exists at :: Resolvable(bank, c, at)
  {
    if Apply(bank, c).Ok? {
      var at := CaseAt(bank.cases, c.caseId, c.memberId);
      CaseFound(bank.cases, c.caseId, c.memberId, at);
      var a := Owned(bank, c.memberId, bank.cases[at].accountId).value;
      UsableIsOwned(bank, c.memberId, bank.cases[at].accountId, a);
      assert Resolvable(bank, c, at);
    }
    if exists at :: Resolvable(bank, c, at) {
      var at :| Resolvable(bank, c, at);
      CaseFound(bank.cases, c.caseId, c.memberId, at);
      var a :| Usable(bank, c.memberId, bank.cases[at].accountId, a);
      UsableIsOwned(bank, c.memberId, bank.cases[at].accountId, a);
    }
  }

  /** A case of the member that is open is closed with the stated resolution; its other contents stay. */
  lemma CasesResolveExactly(bank: Bank, c: Command, key: string, revision: int)
    requires c.Resolve? && key !in bank.completed
    ensures
      var done := Execute(bank, c, key, revision);
      && (done.Ok? <==> Admitted(bank, key, revision) && exists at :: Resolvable(bank, c, at))
      && (done.Ok? ==> forall at | Resolvable(bank, c, at) ::
                         Resolved(bank, c, key, at, done.value.0, done.value.1))
  {
    PostedAs(bank, c, key, revision);
    ResolveApplies(bank, c);
    var done := Execute(bank, c, key, revision);
    if done.Ok? {
      Lines(Apply(bank, c).value.details, done.value.1);
      forall at | Resolvable(bank, c, at)
        ensures Resolved(bank, c, key, at, done.value.0, done.value.1)
      {
        CaseFound(bank.cases, c.caseId, c.memberId, at);
      }
    }
  }
}
