/** Executing a command as the program does: on a clone of the bank that is pushed to and assigned in place. */
module BankPosting {
  import opened Prelude
  import opened Bank

  type Lines = seq<(string, Shown)>

  /** What a command shows, when it goes through. */
  type Showing = Result<(string, Lines), Fault>

  class Clone {
    const bank: Bank
    var postings: seq<Posting>
    var holds: seq<Hold>
    var cards: seq<Card>
    var cases: seq<ServiceCase>
    var revision: nat
    var journal: seq<Entry>
    var completed: map<string, Done>

    constructor (bank: Bank)
      ensures this.bank == bank && State() == bank
    {
      this.bank := bank;
      postings, holds, cards, cases := bank.postings, bank.holds, bank.cards, bank.cases;
      revision, journal, completed := bank.revision, bank.journal, bank.completed;
    }

    function State(): Bank
      reads this
    {
      bank.(postings := postings, holds := holds, cards := cards, cases := cases,
            revision := revision, journal := journal, completed := completed)
    }

    /** The clone shows and holds what the specification says. */
    ghost predicate Shows(shown: Showing, done: Result<Effect, Fault>)
      reads this
    {
      match done
      case Err(code) => shown == Err(code)
      case Ok(e) => shown == Ok((e.title, e.details)) && State() == e.bank
    }

    method PostTransfer(c: Command) returns (shown: Showing)
      requires c.Transfer? && State() == bank
      modifies this`postings
      ensures Shows(shown, DoTransfer(bank, c))
    {
      var source :- Owned(bank, c.memberId, c.source);
      var target :- Owned(bank, c.memberId, c.target);
      if source.id == target.id { return Err("same_account"); }
      if source.kind == AutoLoan || target.kind == AutoLoan { return Err("deposit_only"); }
      var cents :- ParseMoney(c.amount);
      if cents > Available(bank, source) { return Err("insufficient_funds"); }
      var memo :- Reason(c.memo);
      var reference := ReferenceOf(bank);
      postings := postings + [
        Posting(reference + "-D", source.id, bank.businessDate, "Transfer to " + target.suffix + ": " + memo,
                -(cents as int), true, reference),
        Posting(reference + "-C", target.id, bank.businessDate, "Transfer from " + source.suffix + ": " + memo,
                cents, true, reference)];
      shown := Ok(("Internal transfer posted",
                   [("Debit account", Text(source.id)), ("Credit account", Text(target.id)), ("Amount", Money(cents)),
                    ("Purpose", Text(memo)), ("Source available", Money(Available(State(), source)))]));
    }

    method ChangeCard(c: Command) returns (shown: Showing)
      requires c.SetCard? && State() == bank
      modifies this`cards
      ensures Shows(shown, DoCard(bank, c))
    {
      var at := CardAt(cards, c.cardId);
      if at == |cards| { return Err("card_missing"); }
      var _ :- Owned(bank, c.memberId, cards[at].accountId);
      var why :- Reason(c.reason);
      if cards[at].status == Expired { return Err("card_expired"); }
      if cards[at].status == c.desired { return Err("already_in_state"); }
      cards := cards[at := cards[at].(status := c.desired)];
      shown := Ok((if c.desired == Active then "Card unlocked" else "Card temporarily locked",
                   [("Card ID", Text(cards[at].id)), ("Card last 4", Text(cards[at].suffix)),
                    ("Cardholder", Text(cards[at].holder)),
                    ("Lock status", Lock(cards[at].status)), ("Reason", Text(why))]));
    }

    method Place(c: Command) returns (shown: Showing)
      requires c.PlaceHold? && State() == bank
      modifies this`holds
      ensures Shows(shown, DoHold(bank, c))
    {
      if bank.role != Supervisor { return Err("permission_denied"); }
      var account :- Owned(bank, c.memberId, c.accountId);
      if account.kind == AutoLoan { return Err("deposit_only"); }
      var cents :- ParseMoney(c.amount);
      if cents > Available(bank, account) { return Err("insufficient_funds"); }
      var why :- Reason(c.reason);
      holds := holds + [Hold(ReferenceOf(bank), account.id, cents, why, true)];
      shown := Ok(("Administrative hold placed",
                   [("Account", Text(account.id)), ("Amount", Money(cents)), ("Reason", Text(why)),
                    ("Available balance", Money(Available(State(), account)))]));
    }

    method Release(c: Command) returns (shown: Showing)
      requires c.ReleaseHold? && State() == bank
      modifies this`holds
      ensures Shows(shown, DoRelease(bank, c))
    {
      if bank.role != Supervisor { return Err("permission_denied"); }
      var at := HoldAt(holds, c.holdId);
      if at == |holds| { return Err("hold_missing"); }
      var account :- Owned(bank, c.memberId, holds[at].accountId);
      var why :- Reason(c.reason);
      if !holds[at].active { return Err("hold_released"); }
      holds := holds[at := holds[at].(active := false)];
      shown := Ok(("Hold released",
                   [("Hold reference", Text(holds[at].id)), ("Released amount", Money(holds[at].cents)),
                    ("Reason", Text(why)),
                    ("Available balance", Money(Available(State(), account)))]));
    }

    method Open(c: Command) returns (shown: Showing)
      requires c.OpenCase? && State() == bank
      modifies this`cases
      ensures Shows(shown, DoCase(bank, c))
    {
      var _ :- Owned(bank, c.memberId, c.accountId);
      if c.category !in CATEGORIES { return Err("invalid_category"); }
      var subject :- Reason(c.subject);
      var id := ReferenceOf(bank);
      cases := cases + [ServiceCase(id, c.memberId, c.accountId, c.category, subject, true, "")];
      shown := Ok(("Service case opened",
                   [("Case ID", Text(id)), ("Account", Text(c.accountId)), ("Category", Text(c.category)),
                    ("Request summary", Text(subject)), ("Status", Text("Open"))]));
    }

    method Close(c: Command) returns (shown: Showing)
      requires c.Resolve? && State() == bank
      modifies this`cases
      ensures Shows(shown, DoResolve(bank, c))
    {
      var at := CaseAt(cases, c.caseId, c.memberId);
      if at == |cases| { return Err("case_missing"); }
      var _ :- Owned(bank, c.memberId, cases[at].accountId);
      if !cases[at].open { return Err("case_resolved"); }
      var resolution :- Reason(c.resolution);
      cases := cases[at := cases[at].(open := false, resolution := resolution)];
      shown := Ok(("Service case resolved",
                   [("Case ID", Text(cases[at].id)), ("Status", Text("Resolved")),
                    ("Resolution", Text(cases[at].resolution))]));
    }

    method Carry(c: Command) returns (shown: Showing)
      requires State() == bank
      modifies this
      ensures Shows(shown, Apply(bank, c))
    {
      match c
      case Transfer(_, _, _, _, _) => shown := PostTransfer(c);
      case SetCard(_, _, _, _) => shown := ChangeCard(c);
      case PlaceHold(_, _, _, _) => shown := Place(c);
      case ReleaseHold(_, _, _) => shown := Release(c);
      case OpenCase(_, _, _, _) => shown := Open(c);
      case Resolve(_, _, _) => shown := Close(c);
      case Quote(_, _, _) =>
        var q :- PayoffOf(bank, c.memberId, c.accountId, c.date);
        shown := Ok(("Payoff quote issued",
                     [("Loan account", Text(c.accountId)), ("Principal", Money(q.principal)),
                      ("Accrued interest", Money(q.accrued)),
                      ("Additional interest", Money(q.interest)), ("Payoff amount", Money(q.total)),
                        ("Good through", Text(c.date))]));
    }

    method Record(c: Command, key: string, title: string, receipt: Receipt, ghost e: Effect)
      requires State() == e.bank && title == e.title && receipt == ReceiptOf(bank, c, e)
      modifies this
      ensures State() == Recorded(bank, c, key, e)
    {
      revision := revision + 1;
      journal := journal + [Entry(receipt.reference, title, c.memberId, bank.role, bank.businessDate)];
      completed := completed[key := Done(c, receipt)];
    }
  }

  method PostOnClone(bank: Bank, c: Command, key: string) returns (r: Result<(Bank, Receipt), Fault>)
    ensures r == PostNew(bank, c, key)
  {
    var next := new Clone(bank);
    var shown := next.Carry(c);
    if shown.Err? { return Err(shown.error); }
    var (title, lines) := shown.value;
    var receipt := Receipt(ReferenceOf(bank), title,
                           [("Member ID", Text(c.memberId))] + lines + [("Business date", Text(bank.businessDate))]);
    ghost var e := Apply(bank, c).value;
    assert receipt == ReceiptOf(bank, c, e);
    next.Record(c, key, title, receipt, e);
    r := Ok((next.State(), receipt));
  }

  /** The bank passed in is never changed; what comes back is the clone, or the bank itself for a completed key. */
  method ExecuteOnClone(bank: Bank, c: Command, key: string, expectedRevision: int)
    returns (r: Result<(Bank, Receipt), Fault>)
    ensures r == Execute(bank, c, key, expectedRevision)
  {
    if bank.role == Inquiry { return Err("permission_denied"); }
    if !KeyFormat(key) { return Err("invalid_request"); }
    if key in bank.completed {
      if bank.completed[key].fingerprint != c { return Err("request_conflict"); }
      return Ok((bank, bank.completed[key].receipt));
    }
    if expectedRevision != bank.revision { return Err("stale_review"); }
    r := PostOnClone(bank, c, key);
  }
}
