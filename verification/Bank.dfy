/** The servicing ledger: accounts, postings and holds, and the commands that change them once per request key. */
module Bank {
  import opened Prelude

  // ---------------------------------------------------------------- records

  datatype Tenant = Harbor | Summit

  datatype Role = Servicing | Inquiry | Supervisor

  datatype AccountKind = Checking | Savings | AutoLoan

  datatype Member = Member(id: Id, name: string, restricted: bool, notice: string)

  datatype Account = Account(id: Id, memberId: Id, kind: AccountKind, suffix: string, opening: int, open: bool,
                             aprBps: int, accrued: int)

  datatype Posting = Posting(id: Id, accountId: Id, date: string, description: string, cents: int, posted: bool,
                             reference: string)

  datatype Hold = Hold(id: Id, accountId: Id, cents: int, reason: string, active: bool)

  datatype CardStatus = Active | Locked | Expired

  datatype Card = Card(id: Id, accountId: Id, suffix: string, holder: string, status: CardStatus)

  datatype ServiceCase =
    ServiceCase(id: Id, memberId: Id, accountId: Id, category: string, subject: string, open: bool, resolution: string)

  /** What a receipt line shows; amounts are formatted when displayed. */
  datatype Shown = Text(text: string) | Money(cents: int) | Lock(status: CardStatus)

  datatype Receipt = Receipt(reference: string, title: string, details: seq<(string, Shown)>)

  datatype Entry = Entry(reference: string, operation: string, memberId: Id, role: Role, date: string)

  datatype Command =
    | Transfer(memberId: Id, source: Id, target: Id, amount: string, memo: string)
    | SetCard(memberId: Id, cardId: Id, desired: CardStatus, reason: string)
    | PlaceHold(memberId: Id, accountId: Id, amount: string, reason: string)
    | ReleaseHold(memberId: Id, holdId: Id, reason: string)
    | Quote(memberId: Id, accountId: Id, date: string)
    | OpenCase(memberId: Id, accountId: Id, category: string, subject: string)
    | Resolve(memberId: Id, caseId: Id, resolution: string)

  /** A command's text form identifies it, so the command stands for its fingerprint. */
  datatype Done = Done(fingerprint: Command, receipt: Receipt)

  datatype Bank = Bank(
    tenant: Tenant,
    role: Role,
    businessDate: string,
    revision: nat,
    members: seq<Member>,
    accounts: seq<Account>,
    postings: seq<Posting>,
    holds: seq<Hold>,
    cards: seq<Card>,
    cases: seq<ServiceCase>,
    journal: seq<Entry>,
    completed: map<string, Done>)

  /** The code of a rule that a command breaks. */
  type Fault = string

  function Require(condition: bool, code: Fault): Result<(), Fault> {
    if condition then Ok(()) else Err(code)
  }

  // ---------------------------------------------------------------- amounts

  function DotAt(text: string): (at: nat)
    ensures at <= |text|
    ensures forall k :: 0 <= k < at ==> text[k] != '.'
    ensures at < |text| ==> text[at] == '.'
  {
    if text == "" || text[0] == '.' then 0 else 1 + DotAt(text[1..])
  }

  predicate WholePart(text: string) {
    && 1 <= |text| <= 7 && Digits(text)
    && (text == "0" || text[0] != '0')
  }

  predicate FractionPart(text: string) {
    1 <= |text| <= 2 && Digits(text)
  }

  /** Dollars without leading zeros, and optionally one or two digits of cents. */
  predicate AmountFormat(text: string) {
    var at := DotAt(text);
    WholePart(text[..at]) && (at == |text| || FractionPart(text[at + 1..]))
  }

  function CentsOf(text: string): nat
    requires AmountFormat(text)
  {
    var at := DotAt(text);
    var fraction := if at == |text| then "" else text[at + 1..];
    Number(text[..at]) * 100 + (if |fraction| == 0 then 0 else if |fraction| == 1 then Number(fraction) * 10
                                else Number(fraction))
  }

  const MAX_CENTS := 100_000_000

  function ParseMoney(text: string): (parsed: Result<nat, Fault>)
    ensures parsed.Ok? ==> 1 <= parsed.value <= MAX_CENTS
  {
    var t := Trim(text);
    if !AmountFormat(t) then Err("invalid_amount")
    else if !(0 < CentsOf(t) <= MAX_CENTS) then Err("amount_limit")
    else Ok(CentsOf(t))
  }

  /** Dollars and cents with two decimal places. */
  function Dollars(cents: nat): string {
    Decimal(cents / 100) + "." + PadStart(Decimal(cents % 100), 2)
  }

  lemma {:induction false} DecimalLength(n: nat, width: nat, power: nat)
    requires n < power && width >= 1 && power == Power10(width)
    ensures |Decimal(n)| <= width
    ensures n > 0 ==> Decimal(n)[0] != '0'
  {
    if n >= 10 {
      assert width > 1;
      DecimalLength(n / 10, width - 1, Power10(width - 1));
    }
  }

  function Power10(n: nat): nat {
    if n == 0 then 1 else 10 * Power10(n - 1)
  }

  lemma {:induction false} DotAfterDigits(whole: string, rest: string)
    requires Digits(whole)
    ensures DotAt(whole + "." + rest) == |whole|
  {
    var text := whole + "." + rest;
    if whole != "" {
      assert text[1..] == whole[1..] + "." + rest;
      DotAfterDigits(whole[1..], rest);
    }
  }

  lemma WholeDollars(n: nat)
    requires n < 10_000_000
    ensures WholePart(Decimal(n)) && Number(Decimal(n)) == n
  {
    assert Power10(7) == 10_000_000;
    DecimalLength(n, 7, Power10(7));
    NumberOfDecimal(n);
  }

  lemma TwoPlaces(n: nat)
    requires n < 100
    ensures var part := PadStart(Decimal(n), 2); |part| == 2 && Digits(part) && Number(part) == n
  {
    assert Power10(2) == 100;
    DecimalLength(n, 2, Power10(2));
    PaddedNumber(n, 2);
  }

  /** Every amount in the accepted range survives being written out and read back. */
  lemma AmountsRoundTrip(cents: nat)
    requires 1 <= cents <= MAX_CENTS
    ensures ParseMoney(Dollars(cents)) == Ok(cents)
  {
    var whole, part := Decimal(cents / 100), PadStart(Decimal(cents % 100), 2);
    WholeDollars(cents / 100);
    TwoPlaces(cents % 100);
    ReadBack(whole, part);
    var text := whole + "." + part;
    assert text[0] == whole[0] && text[|text| - 1] == part[1];
    UntrimmedDigits(text);
    assert CentsOf(text) == (cents / 100) * 100 + cents % 100;
  }

  lemma ReadBack(whole: string, part: string)
    requires WholePart(whole) && |part| == 2 && Digits(part)
    ensures AmountFormat(whole + "." + part) && CentsOf(whole + "." + part) == Number(whole) * 100 + Number(part)
  {
    var text := whole + "." + part;
    DotAfterDigits(whole, part);
    assert text[..|whole|] == whole && text[|whole| + 1..] == part;
  }

  lemma UntrimmedDigits(text: string)
    requires |text| > 0 && '0' <= text[0] <= '9' && '0' <= text[|text| - 1] <= '9'
    ensures Trim(text) == text
  {
  }

  // ---------------------------------------------------------------- dates

  predicate DateFormat(text: string) {
    && |text| == 10 && text[4] == '-' && text[7] == '-'
    && Digits(text[..4]) && Digits(text[5..7]) && Digits(text[8..])
  }

  predicate Leap(year: nat) {
    year % 4 == 0 && (year % 100 != 0 || year % 400 == 0)
  }

  function DaysIn(year: nat, month: nat): nat {
    if month == 2 then (if Leap(year) then 29 else 28)
    else if month in {4, 6, 9, 11} then 30 else 31
  }

  predicate Calendar(year: nat, month: nat, day: nat) {
    1 <= month <= 12 && 1 <= day <= DaysIn(year, month)
  }

  const CUMULATIVE: seq<nat> := [0, 31, 59, 90, 120, 151, 181, 212, 243, 273, 304, 334]

  function DaysBefore(year: nat, month: nat): nat
    requires 1 <= month <= 12
  {
    CUMULATIVE[month - 1] + (if month > 2 && Leap(year) then 1 else 0)
  }

  function LeapsBefore(year: nat): nat {
    if year == 0 then 0 else (year - 1) / 4 - (year - 1) / 100 + (year - 1) / 400 + 1
  }

  /** Days since the first of January of year 0 in the Gregorian calendar. */
  function DayNumber(year: nat, month: nat, day: nat): int
    requires 1 <= month <= 12
  {
    365 * year + LeapsBefore(year) + DaysBefore(year, month) + day - 1
  }

  function Tomorrow(year: nat, month: nat, day: nat): (nat, nat, nat) {
    if day < DaysIn(year, month) then (year, month, day + 1)
    else if month < 12 then (year, month + 1, 1)
    else (year + 1, 1, 1)
  }

  lemma Multiples(n: nat)
    requires n > 0
    ensures n / 4 - (n - 1) / 4 == if n % 4 == 0 then 1 else 0
    ensures n / 100 - (n - 1) / 100 == if n % 100 == 0 then 1 else 0
    ensures n / 400 - (n - 1) / 400 == if n % 400 == 0 then 1 else 0
    ensures n % 400 == 0 ==> n % 100 == 0
    ensures n % 100 == 0 ==> n % 4 == 0
  {
  }

  lemma LeapYears(year: nat)
    ensures LeapsBefore(year + 1) == LeapsBefore(year) + (if Leap(year) then 1 else 0)
  {
    if year > 0 {
      Multiples(year);
    }
  }

  /** Day numbers count the calendar: the next day has the next number, across months and leap years. */
  lemma DaysAreConsecutive(year: nat, month: nat, day: nat)
    requires Calendar(year, month, day)
    ensures
      var (y, m, d) := Tomorrow(year, month, day);
      Calendar(y, m, d) && DayNumber(y, m, d) == DayNumber(year, month, day) + 1
  {
    LeapYears(year);
  }

  function ParseDate(text: string): Result<int, Fault> {
    if !DateFormat(text) then Err("invalid_date") else
    var year, month, day := Number(text[..4]), Number(text[5..7]), Number(text[8..]);
    if Calendar(year, month, day) then Ok(DayNumber(year, month, day)) else Err("invalid_date")
  }

  // ---------------------------------------------------------------- balances

  function PostedSum(postings: seq<Posting>, id: Id): int {
    if postings == [] then 0 else
    var last := postings[|postings| - 1];
    PostedSum(postings[..|postings| - 1], id) + (if last.accountId == id && last.posted then last.cents else 0)
  }

  function HeldSum(holds: seq<Hold>, id: Id): int {
    if holds == [] then 0 else
    var last := holds[|holds| - 1];
    HeldSum(holds[..|holds| - 1], id) + (if last.accountId == id && last.active then last.cents else 0)
  }

  function FindMember(members: seq<Member>, id: Id): (found: Option<Member>)
    ensures found.Some? ==> found.value in members && found.value.id == id
  {
    if members == [] then None else if members[0].id == id then Some(members[0]) else FindMember(members[1..], id)
  }

  function FindAccount(accounts: seq<Account>, id: Id, memberId: Id): (found: Option<Account>)
    ensures found.Some? ==> found.value in accounts && found.value.id == id && found.value.memberId == memberId
  {
    if accounts == [] then None
    else if accounts[0].id == id && accounts[0].memberId == memberId then Some(accounts[0])
    else FindAccount(accounts[1..], id, memberId)
  }

  /** The account's ledger balance: its opening balance and everything posted to it. */
  function Ledger(bank: Bank, account: Account): int {
    account.opening + PostedSum(bank.postings, account.id)
  }

  function Available(bank: Bank, account: Account): int {
    Ledger(bank, account) - HeldSum(bank.holds, account.id)
  }

  function Owned(bank: Bank, memberId: Id, accountId: Id): (owned: Result<Account, Fault>)
    ensures owned.Ok? ==> owned.value in bank.accounts && owned.value.id == accountId
                          && owned.value.memberId == memberId
    ensures owned.Ok? ==> FindMember(bank.members, memberId).Some?
  {
    var member := FindMember(bank.members, memberId);
    var _ :- Require(member.Some?, "member_missing");
    var _ :- Require(!member.value.restricted, "member_restricted");
    var account := FindAccount(bank.accounts, accountId, memberId);
    var _ :- Require(account.Some?, "account_mismatch");
    var _ :- Require(account.value.open, "account_frozen");
    Ok(account.value)
  }

  function Reason(text: string): Result<string, Fault> {
    var _ :- Require(8 <= |Trim(text)| <= 160, "reason_required");
    Ok(Trim(text))
  }

  // ---------------------------------------------------------------- payoff quotes

  /** Division that drops the fraction, as machine integers do. */
  function Truncated(a: int, b: nat): int
    requires b > 0
  {
    if a >= 0 then a / b else -((-a) / b)
  }

  /** Simple interest on a year of 365 days, rounded to cents, halves up. */
  function Interest(principal: int, aprBps: int, days: int): int {
    Truncated(principal * aprBps * days + 1_825_000, 3_650_000)
  }

  datatype Payoff = Payoff(principal: int, accrued: int, interest: int, total: int, days: int)

  function PayoffOf(bank: Bank, memberId: Id, accountId: Id, date: string): Result<Payoff, Fault> {
    var account :- Owned(bank, memberId, accountId);
    var _ :- Require(account.kind == AutoLoan, "not_loan");
    var due :- ParseDate(date);
    var today :- ParseDate(bank.businessDate);
    var days := due - today;
    var _ :- Require(0 <= days <= 30, "date_window");
    var principal := Ledger(bank, account);
    var interest := Interest(principal, account.aprBps, days);
    Ok(Payoff(principal, account.accrued, interest, principal + account.accrued + interest, days))
  }

  // ---------------------------------------------------------------- commands

  predicate KeyFormat(key: string) {
    && 8 <= |key| <= 80
    && forall k :: 0 <= k < |key| ==>
         var c := key[k];
         'a' <= c <= 'z' || 'A' <= c <= 'Z' || '0' <= c <= '9' || c == '-'
  }

  function Numbered(tenant: Tenant, n: nat): string {
    (if tenant == Harbor then "HBR" else "SUM") + "-" + PadStart(Decimal(n), 6)
  }

  /** The reference of the next thing to be posted. */
  function ReferenceOf(bank: Bank): string {
    Numbered(bank.tenant, bank.revision + 1)
  }

  /** What a command changes and shows, before the revision, the journal and the key are recorded. */
  datatype Effect = Effect(bank: Bank, title: string, details: seq<(string, Shown)>)

  function DoTransfer(bank: Bank, c: Command): (done: Result<Effect, Fault>)
    requires c.Transfer?
    ensures done.Ok? ==> done.value.bank == bank.(postings := done.value.bank.postings)
                         && FindMember(bank.members, c.memberId).Some?
  {
    var source :- Owned(bank, c.memberId, c.source);
    var target :- Owned(bank, c.memberId, c.target);
    var _ :- Require(source.id != target.id, "same_account");
    var _ :- Require(source.kind != AutoLoan && target.kind != AutoLoan, "deposit_only");
    var cents :- ParseMoney(c.amount);
    var _ :- Require(cents <= Available(bank, source), "insufficient_funds");
    var memo :- Reason(c.memo);
    var reference := ReferenceOf(bank);
    var debit := Posting(reference + "-D", source.id, bank.businessDate, "Transfer to " + target.suffix + ": " + memo,
                         -(cents as int), true, reference);
    var credit := Posting(reference + "-C", target.id, bank.businessDate,
                          "Transfer from " + source.suffix + ": " + memo,
                          cents, true, reference);
    var next := bank.(postings := bank.postings + [debit, credit]);
    Ok(Effect(next, "Internal transfer posted",
              [("Debit account", Text(source.id)), ("Credit account", Text(target.id)), ("Amount", Money(cents)),
               ("Purpose", Text(memo)), ("Source available", Money(Available(next, source)))]))
  }

  function CardAt(cards: seq<Card>, id: Id): (at: nat)
    ensures at <= |cards| && (at < |cards| ==> cards[at].id == id)
  {
    if cards == [] || cards[0].id == id then 0 else 1 + CardAt(cards[1..], id)
  }

  function DoCard(bank: Bank, c: Command): (done: Result<Effect, Fault>)
    requires c.SetCard?
    ensures done.Ok? ==> done.value.bank == bank.(cards := done.value.bank.cards)
                         && FindMember(bank.members, c.memberId).Some?
  {
    var at := CardAt(bank.cards, c.cardId);
    var _ :- Require(at < |bank.cards|, "card_missing");
    var card := bank.cards[at];
    var _ :- Owned(bank, c.memberId, card.accountId);
    var reason :- Reason(c.reason);
    var _ :- Require(card.status != Expired, "card_expired");
    var _ :- Require(card.status != c.desired, "already_in_state");
    Ok(Effect(bank.(cards := bank.cards[at := card.(status := c.desired)]),
              if c.desired == Active then "Card unlocked" else "Card temporarily locked",
              [("Card ID", Text(card.id)), ("Card last 4", Text(card.suffix)), ("Cardholder", Text(card.holder)),
               ("Lock status", Lock(c.desired)), ("Reason", Text(reason))]))
  }

  function DoHold(bank: Bank, c: Command): (done: Result<Effect, Fault>)
    requires c.PlaceHold?
    ensures done.Ok? ==> done.value.bank == bank.(holds := done.value.bank.holds)
                         && FindMember(bank.members, c.memberId).Some?
  {
    var _ :- Require(bank.role == Supervisor, "permission_denied");
    var account :- Owned(bank, c.memberId, c.accountId);
    var _ :- Require(account.kind != AutoLoan, "deposit_only");
    var cents :- ParseMoney(c.amount);
    var _ :- Require(cents <= Available(bank, account), "insufficient_funds");
    var reason :- Reason(c.reason);
    var next := bank.(holds := bank.holds + [Hold(ReferenceOf(bank), account.id, cents, reason, true)]);
    Ok(Effect(next, "Administrative hold placed",
              [("Account", Text(account.id)), ("Amount", Money(cents)), ("Reason", Text(reason)),
               ("Available balance", Money(Available(next, account)))]))
  }

  function HoldAt(holds: seq<Hold>, id: Id): (at: nat)
    ensures at <= |holds| && (at < |holds| ==> holds[at].id == id)
  {
    if holds == [] || holds[0].id == id then 0 else 1 + HoldAt(holds[1..], id)
  }

  function DoRelease(bank: Bank, c: Command): (done: Result<Effect, Fault>)
    requires c.ReleaseHold?
    ensures done.Ok? ==> done.value.bank == bank.(holds := done.value.bank.holds)
                         && FindMember(bank.members, c.memberId).Some?
  {
    var _ :- Require(bank.role == Supervisor, "permission_denied");
    var at := HoldAt(bank.holds, c.holdId);
    var _ :- Require(at < |bank.holds|, "hold_missing");
    var hold := bank.holds[at];
    var account :- Owned(bank, c.memberId, hold.accountId);
    var reason :- Reason(c.reason);
    var _ :- Require(hold.active, "hold_released");
    var next := bank.(holds := bank.holds[at := hold.(active := false)]);
    Ok(Effect(next, "Hold released",
              [("Hold reference", Text(hold.id)), ("Released amount", Money(hold.cents)), ("Reason", Text(reason)),
               ("Available balance", Money(Available(next, account)))]))
  }

  function DoQuote(bank: Bank, c: Command): (done: Result<Effect, Fault>)
    requires c.Quote?
    ensures done.Ok? ==> done.value.bank == bank && FindMember(bank.members, c.memberId).Some?
  {
    var q :- PayoffOf(bank, c.memberId, c.accountId, c.date);
    Ok(Effect(bank, "Payoff quote issued",
              [("Loan account", Text(c.accountId)), ("Principal", Money(q.principal)),
               ("Accrued interest", Money(q.accrued)),
               ("Additional interest", Money(q.interest)), ("Payoff amount", Money(q.total)),
                 ("Good through", Text(c.date))]))
  }

  const CATEGORIES := {"Transaction inquiry", "Account maintenance", "Card inquiry"}

  function DoCase(bank: Bank, c: Command): (done: Result<Effect, Fault>)
    requires c.OpenCase?
    ensures done.Ok? ==> done.value.bank == bank.(cases := done.value.bank.cases)
                         && FindMember(bank.members, c.memberId).Some?
  {
    var _ :- Owned(bank, c.memberId, c.accountId);
    var _ :- Require(c.category in CATEGORIES, "invalid_category");
    var subject :- Reason(c.subject);
    var id := ReferenceOf(bank);
    Ok(Effect(bank.(cases := bank.cases + [ServiceCase(id, c.memberId, c.accountId, c.category, subject, true, "")]),
              "Service case opened",
              [("Case ID", Text(id)), ("Account", Text(c.accountId)), ("Category", Text(c.category)),
               ("Request summary", Text(subject)), ("Status", Text("Open"))]))
  }

  function CaseAt(cases: seq<ServiceCase>, id: Id, memberId: Id): (at: nat)
    ensures at <= |cases| && (at < |cases| ==> cases[at].id == id && cases[at].memberId == memberId)
  {
    if cases == [] || (cases[0].id == id && cases[0].memberId == memberId) then 0
      else 1 + CaseAt(cases[1..], id, memberId)
  }

  function DoResolve(bank: Bank, c: Command): (done: Result<Effect, Fault>)
    requires c.Resolve?
    ensures done.Ok? ==> done.value.bank == bank.(cases := done.value.bank.cases)
                         && FindMember(bank.members, c.memberId).Some?
  {
    var at := CaseAt(bank.cases, c.caseId, c.memberId);
    var _ :- Require(at < |bank.cases|, "case_missing");
    var item := bank.cases[at];
    var _ :- Owned(bank, c.memberId, item.accountId);
    var _ :- Require(item.open, "case_resolved");
    var resolution :- Reason(c.resolution);
    Ok(Effect(bank.(cases := bank.cases[at := item.(open := false, resolution := resolution)]),
              "Service case resolved",
              [("Case ID", Text(item.id)), ("Status", Text("Resolved")), ("Resolution", Text(resolution))]))
  }

  /** Only transfers post, only known members are served, and no command touches what identifies the bank. */
  function Apply(bank: Bank, c: Command): (done: Result<Effect, Fault>)
    ensures done.Ok? ==>
              var next := done.value.bank;
              && next == bank.(postings := next.postings, holds := next.holds, cards := next.cards, cases := next.cases)
              && (c.Transfer? || next.postings == bank.postings)
              && FindMember(bank.members, c.memberId).Some?
  {
    match c
    case Transfer(_, _, _, _, _) => DoTransfer(bank, c)
    case SetCard(_, _, _, _) => DoCard(bank, c)
    case PlaceHold(_, _, _, _) => DoHold(bank, c)
    case ReleaseHold(_, _, _) => DoRelease(bank, c)
    case Quote(_, _, _) => DoQuote(bank, c)
    case OpenCase(_, _, _, _) => DoCase(bank, c)
    case Resolve(_, _, _) => DoResolve(bank, c)
  }

  function ReceiptOf(bank: Bank, c: Command, e: Effect): Receipt {
    Receipt(ReferenceOf(bank), e.title,
            [("Member ID", Text(c.memberId))] + e.details + [("Business date", Text(bank.businessDate))])
  }

  function Recorded(bank: Bank, c: Command, key: string, e: Effect): Bank {
    e.bank.(revision := e.bank.revision + 1,
            journal := e.bank.journal + [Entry(ReferenceOf(bank), e.title, c.memberId, bank.role, bank.businessDate)],
            completed := e.bank.completed[key := Done(c, ReceiptOf(bank, c, e))])
  }

  function PostNew(bank: Bank, c: Command, key: string): Result<(Bank, Receipt), Fault> {
    var e :- Apply(bank, c);
    Ok((Recorded(bank, c, key, e), ReceiptOf(bank, c, e)))
  }

  /** Posts a command once per key: a key that is already completed gives back its receipt and changes nothing. */
  function Execute(bank: Bank, c: Command, key: string, expectedRevision: int): Result<(Bank, Receipt), Fault> {
    var _ :- Require(bank.role != Inquiry, "permission_denied");
    var _ :- Require(KeyFormat(key), "invalid_request");
    if key in bank.completed then
      var _ :- Require(bank.completed[key].fingerprint == c, "request_conflict");
      Ok((bank, bank.completed[key].receipt))
    else
      var _ :- Require(expectedRevision == bank.revision, "stale_review");
      PostNew(bank, c, key)
  }

  // ---------------------------------------------------------------- runs

  datatype Event = Post(command: Command, key: string, revision: int) | Become(role: Role)

  function Step(bank: Bank, e: Event): Bank {
    match e
    case Become(role) => bank.(role := role)
    case Post(c, key, revision) =>
      var done := Execute(bank, c, key, revision);
      if done.Ok? then done.value.0 else bank
  }

  function Run(bank: Bank, events: seq<Event>): Bank {
    if events == [] then bank else Step(Run(bank, events[..|events| - 1]), events[|events| - 1])
  }

  // ---------------------------------------------------------------- a key is used once

  lemma {:induction false} CompletedStays(bank: Bank, events: seq<Event>, key: string)
    requires key in bank.completed
    ensures
      var later := Run(bank, events);
      key in later.completed && later.completed[key] == bank.completed[key]
  {
    if events != [] {
      var before, e := Run(bank, events[..|events| - 1]), events[|events| - 1];
      CompletedStays(bank, events[..|events| - 1], key);
    }
  }

  lemma ExecuteCompletes(bank: Bank, c: Command, key: string, revision: int)
    requires Execute(bank, c, key, revision).Ok?
    ensures
      var (posted, receipt) := Execute(bank, c, key, revision).value;
      KeyFormat(key) && key in posted.completed && posted.completed[key] == Done(c, receipt)
  {
  }

  lemma CompletedAnswers(bank: Bank, done: Done, key: string, c: Command, revision: int)
    requires KeyFormat(key) && key in bank.completed && bank.completed[key] == done
    ensures c == done.fingerprint && bank.role != Inquiry ==>
              Execute(bank, c, key, revision) == Ok((bank, done.receipt))
    ensures c != done.fingerprint && bank.role != Inquiry ==> Execute(bank, c, key, revision) == Err("request_conflict")
    ensures Step(bank, Post(c, key, revision)) == bank
  {
  }

  /**
  Sending a completed request again, at any later time, for any revision, gives the original receipt and
  changes nothing; sending other instructions under its key is refused and changes nothing.
  */
  lemma CompletedIsForever(bank: Bank, c: Command, key: string, revision: int, events: seq<Event>, other: Command,
                           again: int)
    requires Execute(bank, c, key, revision).Ok?
    ensures
      var (posted, receipt) := Execute(bank, c, key, revision).value;
      var later := Run(posted, events);
      && (later.role != Inquiry ==> Execute(later, c, key, again) == Ok((later, receipt)))
      && (other != c && later.role != Inquiry ==> Execute(later, other, key, again) == Err("request_conflict"))
      && Step(later, Post(other, key, again)) == later
  {
    ExecuteCompletes(bank, c, key, revision);
    var (posted, receipt) := Execute(bank, c, key, revision).value;
    CompletedStays(posted, events, key);
    CompletedAnswers(Run(posted, events), Done(c, receipt), key, c, again);
    CompletedAnswers(Run(posted, events), Done(c, receipt), key, other, again);
  }

  // ---------------------------------------------------------------- references are new

  lemma NumberedOnce(tenant: Tenant, m: nat, n: nat)
    ensures Numbered(tenant, m) == Numbered(tenant, n) ==> m == n
  {
    PaddedNumber(m, 6);
    PaddedNumber(n, 6);
    assert Numbered(tenant, m)[4..] == PadStart(Decimal(m), 6) && Numbered(tenant, n)[4..] == PadStart(Decimal(n), 6);
  }

  /** References still to be given name no hold and no entry of the journal, and no two of either share one. */
  ghost predicate Fresh(bank: Bank) {
    && (forall h <- bank.holds, n: nat | n > bank.revision :: h.id != Numbered(bank.tenant, n))
    && (forall e <- bank.journal, n: nat | n > bank.revision :: e.reference != Numbered(bank.tenant, n))
    && (forall i, j :: 0 <= i < j < |bank.holds| ==> bank.holds[i].id != bank.holds[j].id)
    && (forall i, j :: 0 <= i < j < |bank.journal| ==> bank.journal[i].reference != bank.journal[j].reference)
  }

  /** The holds after a command: as they were, or with a new one under the next reference. */
  ghost predicate HoldsFollow(bank: Bank, next: Bank) {
    && |bank.holds| <= |next.holds| <= |bank.holds| + 1
    && (forall i :: 0 <= i < |bank.holds| ==> next.holds[i].id == bank.holds[i].id)
    && (|next.holds| == |bank.holds| + 1 ==> next.holds[|bank.holds|].id == ReferenceOf(bank))
  }

  lemma ApplyHolds(bank: Bank, c: Command)
    requires Apply(bank, c).Ok?
    ensures HoldsFollow(bank, Apply(bank, c).value.bank)
  {
  }

  lemma HoldsStayFresh(bank: Bank, next: Bank)
    requires Fresh(bank) && HoldsFollow(bank, next) && next.tenant == bank.tenant && next.revision == bank.revision + 1
    ensures forall h <- next.holds, n: nat | n > next.revision :: h.id != Numbered(next.tenant, n)
    ensures forall i, j :: 0 <= i < j < |next.holds| ==> next.holds[i].id != next.holds[j].id
  {
    forall h <- next.holds, n: nat | n > next.revision ensures h.id != Numbered(next.tenant, n) {
      NumberedOnce(bank.tenant, n, bank.revision + 1);
      var i :| 0 <= i < |next.holds| && next.holds[i] == h;
      if i < |bank.holds| {
        assert bank.holds[i] in bank.holds;
      }
    }
    forall i, j | 0 <= i < j < |next.holds| ensures next.holds[i].id != next.holds[j].id {
      assert bank.holds[i] in bank.holds;
    }
  }

  lemma JournalStaysFresh(bank: Bank, next: Bank, e: Entry)
    requires Fresh(bank) && next.tenant == bank.tenant && next.revision == bank.revision + 1
    requires next.journal == bank.journal + [e] && e.reference == ReferenceOf(bank)
    ensures forall other <- next.journal, n: nat | n > next.revision :: other.reference != Numbered(next.tenant, n)
    ensures forall i, j :: 0 <= i < j < |next.journal| ==> next.journal[i].reference != next.journal[j].reference
  {
    forall other <- next.journal, n: nat | n > next.revision ensures other.reference != Numbered(next.tenant, n) {
      NumberedOnce(bank.tenant, n, bank.revision + 1);
    }
    forall i, j | 0 <= i < j < |next.journal| ensures next.journal[i].reference != next.journal[j].reference {
      assert bank.journal[i] in bank.journal;
    }
  }

  lemma {:induction false} RunFresh(bank: Bank, events: seq<Event>)
    requires Fresh(bank)
    ensures Fresh(Run(bank, events))
  {
    if events != [] {
      RunFresh(bank, events[..|events| - 1]);
      var before, e := Run(bank, events[..|events| - 1]), events[|events| - 1];
      if e.Post? && Execute(before, e.command, e.key, e.revision).Ok? && e.key !in before.completed {
        var after := Step(before, e);
        ApplyHolds(before, e.command);
        HoldsStayFresh(before, after);
        JournalStaysFresh(before, after, after.journal[|before.journal|]);
      }
    }
  }

  // ---------------------------------------------------------------- commands that undo each other

  /** Holds apart, the later bank differs by what is recorded about so many postings. */
  ghost predicate OnlyRecorded(bank: Bank, later: Bank, posted: nat) {
    && later.revision == bank.revision + posted
    && |later.journal| == |bank.journal| + posted && bank.journal <= later.journal
    && later == bank.(revision := later.revision, journal := later.journal, completed := later.completed,
                      holds := later.holds)
  }

  lemma {:induction false} CardAtStays(cards: seq<Card>, id: Id, card: Card)
    requires CardAt(cards, id) < |cards| && card.id == id
    ensures CardAt(cards[CardAt(cards, id) := card], id) == CardAt(cards, id)
  {
    var at := CardAt(cards, id);
    if at > 0 {
      assert cards[at := card][1..] == cards[1..][at - 1 := card];
      CardAtStays(cards[1..], id, card);
    }
  }

  /** What has been posted under a new key when a command went through. */
  lemma ExecuteRecords(bank: Bank, c: Command, key: string, revision: int)
    requires key !in bank.completed
    ensures
      var done := Execute(bank, c, key, revision);
      && (done.Ok? <==> bank.role != Inquiry && KeyFormat(key) && revision == bank.revision && Apply(bank, c).Ok?)
      && (done.Ok? ==> done.value.0 == Recorded(bank, c, key, Apply(bank, c).value))
  {
  }

  lemma CardIsBack(bank: Bank, c: Command, key: string, back: Command)
    requires c.SetCard? && back.SetCard? && back.cardId == c.cardId && back.memberId == c.memberId
    requires {c.desired, back.desired} == {Active, Locked} && DoCard(bank, c).Ok?
    ensures
      var done := DoCard(Recorded(bank, c, key, DoCard(bank, c).value), back);
      && (done.Ok? <==> Reason(back.reason).Ok?)
      && (done.Ok? ==> done.value.bank.cards == bank.cards)
  {
    var at := CardAt(bank.cards, c.cardId);
    var changed := bank.cards[at].(status := c.desired);
    CardAtStays(bank.cards, c.cardId, changed);
    assert bank.cards[at := changed][at := bank.cards[at]] == bank.cards;
    assert bank.cards[at].status == back.desired;
  }

  /**
  A card that was locked can be unlocked, and the reverse, whenever a reason is given for the state at hand
  under a new key; the bank is then as before but for what is recorded about the two postings.
  */
  lemma CardChangeIsUndone(bank: Bank, c: Command, key: string, revision: int, back: Command, again: string,
                           reviewed: int)
    requires c.SetCard? && back.SetCard? && back.cardId == c.cardId && back.memberId == c.memberId
    requires {c.desired, back.desired} == {Active, Locked}
    requires key !in bank.completed && again !in bank.completed && again != key && Execute(bank, c, key, revision).Ok?
    ensures
      var changed := Execute(bank, c, key, revision).value.0;
      var done := Execute(changed, back, again, reviewed);
      && (done.Ok? <==> KeyFormat(again) && reviewed == revision + 1 && Reason(back.reason).Ok?)
      && (done.Ok? ==> OnlyRecorded(bank, done.value.0, 2) && done.value.0.holds == bank.holds)
  {
    ExecuteRecords(bank, c, key, revision);
    var changed := Execute(bank, c, key, revision).value.0;
    ExecuteRecords(changed, back, again, reviewed);
    CardIsBack(bank, c, key, back);
  }

  lemma {:induction false} NewHoldAt(holds: seq<Hold>, h: Hold)
    requires forall earlier <- holds :: earlier.id != h.id
    ensures HoldAt(holds + [h], h.id) == |holds|
  {
    if holds != [] {
      assert (holds + [h])[1..] == holds[1..] + [h];
      NewHoldAt(holds[1..], h);
    }
  }

  lemma HoldIsFound(bank: Bank, c: Command, key: string, back: Command)
    requires Fresh(bank) && c.PlaceHold? && back.ReleaseHold? && back.holdId == ReferenceOf(bank)
             && back.memberId == c.memberId
    requires DoHold(bank, c).Ok?
    ensures
      var placed := Recorded(bank, c, key, DoHold(bank, c).value);
      && |placed.holds| == |bank.holds| + 1 && bank.holds <= placed.holds
      && HoldAt(placed.holds, back.holdId) == |bank.holds| && placed.holds[|bank.holds|].active
      && (DoRelease(placed, back).Ok? <==> Reason(back.reason).Ok?)
  {
    var placed := Recorded(bank, c, key, DoHold(bank, c).value);
    var h := placed.holds[|bank.holds|];
    assert placed.holds == bank.holds + [h];
    NewHoldAt(bank.holds, h);
  }

  lemma HoldIsBack(bank: Bank, placed: Bank, released: Bank, a: Account)
    requires |placed.holds| == |bank.holds| + 1 && bank.holds <= placed.holds && placed.holds[|bank.holds|].active
    requires released.holds == placed.holds[|bank.holds| := placed.holds[|bank.holds|].(active := false)]
    requires released.postings == bank.postings
    ensures Available(released, a) == Available(bank, a) && Ledger(released, a) == Ledger(bank, a)
  {
    var h := placed.holds[|bank.holds|];
    assert placed.holds == bank.holds + [h];
    HeldOne(bank.holds, h, a.id);
    HeldReleased(placed.holds, |bank.holds|, a.id);
  }

  /**
  A hold that was just placed can be released by its reference whenever a reason is given for the state at
  hand under a new key. Every account then has available what it had; the bank is as before but for the
  inactive hold and what is recorded about the two postings.
  */
  lemma HoldIsUndone(bank: Bank, c: Command, key: string, revision: int, back: Command, again: string, reviewed: int,
                     a: Account)
    requires Fresh(bank) && c.PlaceHold? && back.ReleaseHold? && back.holdId == ReferenceOf(bank)
             && back.memberId == c.memberId
    requires key !in bank.completed && again !in bank.completed && again != key && Execute(bank, c, key, revision).Ok?
    ensures
      var placed := Execute(bank, c, key, revision).value.0;
      var done := Execute(placed, back, again, reviewed);
      && (done.Ok? <==> KeyFormat(again) && reviewed == revision + 1 && Reason(back.reason).Ok?)
      && (done.Ok? ==>
            var released := done.value.0;
            && OnlyRecorded(bank, released, 2)
            && |released.holds| == |bank.holds| + 1 && bank.holds <= released.holds
              && !released.holds[|bank.holds|].active
            && Available(released, a) == Available(bank, a) && Ledger(released, a) == Ledger(bank, a))
  {
    ExecuteRecords(bank, c, key, revision);
    var placed := Execute(bank, c, key, revision).value.0;
    ExecuteRecords(placed, back, again, reviewed);
    HoldIsFound(bank, c, key, back);
    var done := Execute(placed, back, again, reviewed);
    if done.Ok? {
      HoldIsBack(bank, placed, done.value.0, a);
    }
  }

  // ---------------------------------------------------------------- conservation

  function Total(accounts: seq<Account>, postings: seq<Posting>): int {
    if accounts == [] then 0 else
    var last := accounts[|accounts| - 1];
    Total(accounts[..|accounts| - 1], postings) + last.opening + PostedSum(postings, last.id)
  }

  function TotalLedger(bank: Bank): int {
    Total(bank.accounts, bank.postings)
  }

  ghost predicate UniqueIds(accounts: seq<Account>) {
    forall i, j :: 0 <= i < j < |accounts| ==> accounts[i].id != accounts[j].id
  }

  predicate Names(accounts: seq<Account>, id: Id) {
    exists i :: 0 <= i < |accounts| && accounts[i].id == id
  }

  lemma {:induction false} OnePosting(accounts: seq<Account>, postings: seq<Posting>, p: Posting)
    requires UniqueIds(accounts) && p.posted
    ensures Total(accounts, postings + [p])
            == Total(accounts, postings) + (if Names(accounts, p.accountId) then p.cents else 0)
  {
    var more := postings + [p];
    assert more[..|more| - 1] == postings;
    if accounts != [] {
      var n := |accounts| - 1;
      OnePosting(accounts[..n], postings, p);
      if accounts[n].id == p.accountId {
        assert !Names(accounts[..n], p.accountId);
      } else if Names(accounts, p.accountId) {
        var i :| 0 <= i < |accounts| && accounts[i].id == p.accountId;
        assert accounts[..n][i].id == p.accountId;
      }
    }
  }

  /** Debiting one account and crediting another leaves the sum of all ledgers as it was. */
  lemma TransferConserves(accounts: seq<Account>, postings: seq<Posting>, debit: Posting, credit: Posting)
    requires UniqueIds(accounts) && debit.posted && credit.posted && debit.cents == -credit.cents
    requires Names(accounts, debit.accountId) && Names(accounts, credit.accountId)
    ensures Total(accounts, postings + [debit, credit]) == Total(accounts, postings)
  {
    OnePosting(accounts, postings, debit);
    OnePosting(accounts, postings + [debit], credit);
    assert postings + [debit, credit] == postings + [debit] + [credit];
  }

  /** Nobody has spent or blocked more than they have, and no active hold is negative. */
  ghost predicate Solvent(bank: Bank) {
    && UniqueIds(bank.accounts)
    && (forall h <- bank.holds :: h.cents >= 0)
    && (forall a <- bank.accounts :: Available(bank, a) >= 0)
  }

  lemma PostedOne(postings: seq<Posting>, p: Posting, id: Id)
    ensures PostedSum(postings + [p], id)
            == PostedSum(postings, id) + (if p.accountId == id && p.posted then p.cents else 0)
  {
    var more := postings + [p];
    assert more[..|more| - 1] == postings;
  }

  lemma PostedTwo(postings: seq<Posting>, p: Posting, q: Posting, id: Id)
    ensures PostedSum(postings + [p, q], id)
         == PostedSum(postings, id) + (if p.accountId == id && p.posted then p.cents else 0)
                                    + (if q.accountId == id && q.posted then q.cents else 0)
  {
    PostedOne(postings, p, id);
    PostedOne(postings + [p], q, id);
    assert postings + [p, q] == postings + [p] + [q];
  }

  lemma HeldOne(holds: seq<Hold>, h: Hold, id: Id)
    ensures HeldSum(holds + [h], id) == HeldSum(holds, id) + (if h.accountId == id && h.active then h.cents else 0)
  {
    var more := holds + [h];
    assert more[..|more| - 1] == holds;
  }

  lemma {:induction false} HeldReleased(holds: seq<Hold>, at: nat, id: Id)
    requires at < |holds| && holds[at].active
    ensures HeldSum(holds[at := holds[at].(active := false)], id)
         == HeldSum(holds, id) - (if holds[at].accountId == id then holds[at].cents else 0)
  {
    var n := |holds| - 1;
    var released := holds[at := holds[at].(active := false)];
    if at < n {
      assert released[..n] == holds[..n][at := holds[at].(active := false)];
      HeldReleased(holds[..n], at, id);
    } else {
      assert released[..n] == holds[..n];
    }
  }

  lemma {:induction false} HeldIsNonNegative(holds: seq<Hold>, id: Id)
    requires forall h <- holds :: h.cents >= 0
    ensures HeldSum(holds, id) >= 0
  {
    if holds != [] {
      HeldIsNonNegative(holds[..|holds| - 1], id);
    }
  }

  lemma SameAccount(bank: Bank, a: Account, b: Account)
    requires UniqueIds(bank.accounts) && a in bank.accounts && b in bank.accounts && a.id == b.id
    ensures a == b
  {
  }

  /** What every command keeps. */
  ghost predicate Sane(bank: Bank, next: Bank) {
    && Solvent(next) && TotalLedger(next) == TotalLedger(bank)
    && (forall a <- bank.accounts | a.kind == AutoLoan :: Ledger(next, a) == Ledger(bank, a))
  }

  lemma TransferKeeps(bank: Bank, c: Command)
    requires c.Transfer? && Solvent(bank) && DoTransfer(bank, c).Ok?
    ensures Sane(bank, DoTransfer(bank, c).value.bank)
  {
    var next := DoTransfer(bank, c).value.bank;
    var source, target := Owned(bank, c.memberId, c.source).value, Owned(bank, c.memberId, c.target).value;
    var n := |bank.postings|;
    var debit, credit := next.postings[n], next.postings[n + 1];
    assert next.postings == bank.postings + [debit, credit];
    TransferConserves(bank.accounts, bank.postings, debit, credit);
    forall a <- bank.accounts
      ensures Available(next, a) >= 0
      ensures a.kind == AutoLoan ==> Ledger(next, a) == Ledger(bank, a)
    {
      PostedTwo(bank.postings, debit, credit, a.id);
      if a.id == source.id { SameAccount(bank, a, source); }
      if a.id == target.id { SameAccount(bank, a, target); }
    }
  }

  lemma HoldKeeps(bank: Bank, c: Command)
    requires c.PlaceHold? && Solvent(bank) && DoHold(bank, c).Ok?
    ensures Sane(bank, DoHold(bank, c).value.bank)
  {
    var next := DoHold(bank, c).value.bank;
    var account := Owned(bank, c.memberId, c.accountId).value;
    var h := next.holds[|bank.holds|];
    assert next.holds == bank.holds + [h];
    forall a <- bank.accounts ensures Available(next, a) >= 0 {
      HeldOne(bank.holds, h, a.id);
      if a.id == account.id { SameAccount(bank, a, account); }
    }
  }

  lemma ReleaseKeeps(bank: Bank, c: Command)
    requires c.ReleaseHold? && Solvent(bank) && DoRelease(bank, c).Ok?
    ensures Sane(bank, DoRelease(bank, c).value.bank)
  {
    var next, at := DoRelease(bank, c).value.bank, HoldAt(bank.holds, c.holdId);
    assert bank.holds[at] in bank.holds;
    forall a <- bank.accounts ensures Available(next, a) >= 0 {
      HeldReleased(bank.holds, at, a.id);
    }
  }

  lemma ApplyKeeps(bank: Bank, c: Command)
    requires Solvent(bank) && Apply(bank, c).Ok?
    ensures Sane(bank, Apply(bank, c).value.bank)
  {
    if c.Transfer? {
      TransferKeeps(bank, c);
    } else if c.PlaceHold? {
      HoldKeeps(bank, c);
    } else if c.ReleaseHold? {
      ReleaseKeeps(bank, c);
    } else {
      QuietKeeps(bank, c);
    }
  }

  lemma QuietKeeps(bank: Bank, c: Command)
    requires Solvent(bank) && Apply(bank, c).Ok? && (c.SetCard? || c.Quote? || c.OpenCase? || c.Resolve?)
    ensures Sane(bank, Apply(bank, c).value.bank)
  {
    SameMoney(bank, Apply(bank, c).value.bank);
  }

  lemma SameMoney(bank: Bank, next: Bank)
    requires next.accounts == bank.accounts && next.postings == bank.postings && next.holds == bank.holds
    ensures Solvent(bank) ==> Solvent(next)
    ensures TotalLedger(next) == TotalLedger(bank)
    ensures forall a <- bank.accounts :: Ledger(next, a) == Ledger(bank, a)
  {
    forall a <- bank.accounts ensures Available(next, a) == Available(bank, a) && Ledger(next, a) == Ledger(bank, a) {}
  }

  /** Every balance on the way to the present one lies within the limit, also halfway through a sum. */
  ghost predicate Bounded(bank: Bank, limit: nat) {
    && TotalLedger(bank) <= limit
    && (forall a <- bank.accounts :: -(limit as int) <= a.opening <= limit)
    && (forall k: nat, a <- bank.accounts | k <= |bank.postings| ::
          -2 * limit <= PostedSum(bank.postings[..k], a.id) <= 2 * limit)
  }

  lemma {:induction false} PartOfTotal(accounts: seq<Account>, postings: seq<Posting>, a: Account)
    requires a in accounts && forall b <- accounts :: b.opening + PostedSum(postings, b.id) >= 0
    ensures 0 <= a.opening + PostedSum(postings, a.id) <= Total(accounts, postings)
  {
    var n := |accounts| - 1;
    if accounts[n] == a {
      TotalIsNonNegative(accounts[..n], postings);
    } else {
      PartOfTotal(accounts[..n], postings, a);
    }
  }

  lemma {:induction false} TotalIsNonNegative(accounts: seq<Account>, postings: seq<Posting>)
    requires forall b <- accounts :: b.opening + PostedSum(postings, b.id) >= 0
    ensures Total(accounts, postings) >= 0
  {
    if accounts != [] {
      TotalIsNonNegative(accounts[..|accounts| - 1], postings);
    }
  }

  /** Ledgers of a solvent bank lie between zero and the total. */
  lemma LedgerWithinTotal(bank: Bank, a: Account)
    requires Solvent(bank) && a in bank.accounts
    ensures 0 <= Ledger(bank, a) <= TotalLedger(bank)
    ensures 0 <= HeldSum(bank.holds, a.id) <= Ledger(bank, a)
  {
    forall b <- bank.accounts ensures b.opening + PostedSum(bank.postings, b.id) >= 0 {
      HeldIsNonNegative(bank.holds, b.id);
      assert Available(bank, b) >= 0;
    }
    HeldIsNonNegative(bank.holds, a.id);
    PartOfTotal(bank.accounts, bank.postings, a);
  }

  /** After a transfer, and between its two postings, each sum is a ledger of a solvent bank less an opening balance. */
  lemma PrefixBounded(bank: Bank, next: Bank, debit: Posting, credit: Posting, limit: nat, k: nat, a: Account)
    requires Solvent(bank) && Bounded(bank, limit) && Solvent(next) && TotalLedger(next) == TotalLedger(bank)
    requires next == bank.(postings := bank.postings + [debit, credit]) && debit.accountId != credit.accountId
    requires a in bank.accounts && k <= |next.postings|
    ensures -2 * limit <= PostedSum(next.postings[..k], a.id) <= 2 * limit
  {
    var n := |bank.postings|;
    LedgerWithinTotal(bank, a);
    LedgerWithinTotal(next, a);
    PostedOne(bank.postings, debit, a.id);
    PostedTwo(bank.postings, debit, credit, a.id);
    if k <= n {
      assert next.postings[..k] == bank.postings[..k];
    } else if k == n + 1 {
      assert next.postings[..k] == bank.postings + [debit];
    } else {
      assert next.postings[..k] == next.postings;
    }
  }

  lemma TransferBounded(bank: Bank, c: Command, limit: nat)
    requires c.Transfer? && Solvent(bank) && Bounded(bank, limit) && DoTransfer(bank, c).Ok?
    ensures Bounded(DoTransfer(bank, c).value.bank, limit)
  {
    var next, n := DoTransfer(bank, c).value.bank, |bank.postings|;
    var debit, credit := next.postings[n], next.postings[n + 1];
    assert next == bank.(postings := bank.postings + [debit, credit]);
    TransferKeeps(bank, c);
    forall k: nat, a <- next.accounts | k <= |next.postings|
      ensures -2 * limit <= PostedSum(next.postings[..k], a.id) <= 2 * limit
    {
      PrefixBounded(bank, next, debit, credit, limit, k, a);
    }
  }

  lemma StepKeeps(bank: Bank, e: Event, limit: nat)
    requires Solvent(bank) && Bounded(bank, limit)
    ensures
      var next := Step(bank, e);
      && Solvent(next) && Bounded(next, limit) && TotalLedger(next) == TotalLedger(bank)
      && next.accounts == bank.accounts && next.members == bank.members && next.businessDate == bank.businessDate
      && (forall a <- bank.accounts | a.kind == AutoLoan :: Ledger(next, a) == Ledger(bank, a))
  {
    var next := Step(bank, e);
    if e.Become? {
      forall a <- bank.accounts ensures Available(next, a) == Available(bank, a)
        && Ledger(next, a) == Ledger(bank, a) {}
    } else if Execute(bank, e.command, e.key, e.revision).Ok? && e.key !in bank.completed {
      var applied := Apply(bank, e.command).value.bank;
      ApplyKeeps(bank, e.command);
      if e.command.Transfer? {
        TransferBounded(bank, e.command, limit);
      }
      forall a <- bank.accounts ensures Available(next, a) == Available(applied, a)
        && Ledger(next, a) == Ledger(applied, a) {}
      assert Bounded(applied, limit);
    }
  }

  lemma {:induction false} RunKeeps(bank: Bank, events: seq<Event>, limit: nat)
    requires Solvent(bank) && Bounded(bank, limit)
    ensures
      var next := Run(bank, events);
      && Solvent(next) && Bounded(next, limit) && TotalLedger(next) == TotalLedger(bank)
      && next.accounts == bank.accounts && next.members == bank.members && next.businessDate == bank.businessDate
      && (forall a <- bank.accounts | a.kind == AutoLoan :: Ledger(next, a) == Ledger(bank, a))
  {
    if events != [] {
      RunKeeps(bank, events[..|events| - 1], limit);
      StepKeeps(Run(bank, events[..|events| - 1]), events[|events| - 1], limit);
    }
  }

  /**
  Over every run of commands and role changes the sum of all ledgers is constant, no account's available
  balance goes below zero, and every ledger, every hold total and every partial sum stays within a bound
  fixed at the start.
  */
  lemma MoneyIsConserved(bank: Bank, events: seq<Event>, limit: nat, a: Account)
    requires Solvent(bank) && Bounded(bank, limit) && a in bank.accounts
    ensures
      var later := Run(bank, events);
      && TotalLedger(later) == TotalLedger(bank)
      && Available(later, a) >= 0
      && 0 <= HeldSum(later.holds, a.id) <= Ledger(later, a) <= limit
      && (forall k: nat | k <= |later.postings| :: -2 * limit <= PostedSum(later.postings[..k], a.id) <= 2 * limit)
  {
    RunKeeps(bank, events, limit);
    LedgerWithinTotal(Run(bank, events), a);
  }

  // ---------------------------------------------------------------- quotes

  lemma SameQuote(bank: Bank, later: Bank, memberId: Id, accountId: Id, date: string)
    requires later.members == bank.members && later.accounts == bank.accounts && later.businessDate == bank.businessDate
    requires forall a <- bank.accounts | a.kind == AutoLoan :: Ledger(later, a) == Ledger(bank, a)
    ensures PayoffOf(later, memberId, accountId, date) == PayoffOf(bank, memberId, accountId, date)
  {
    assert Owned(later, memberId, accountId) == Owned(bank, memberId, accountId);
  }

  /** A quote for a given date is the same at every later time: no command touches a loan's principal. */
  lemma QuotesNeverVary(bank: Bank, events: seq<Event>, limit: nat, memberId: Id, accountId: Id, date: string)
    requires Solvent(bank) && Bounded(bank, limit)
    ensures PayoffOf(Run(bank, events), memberId, accountId, date) == PayoffOf(bank, memberId, accountId, date)
  {
    RunKeeps(bank, events, limit);
    SameQuote(bank, Run(bank, events), memberId, accountId, date);
  }

  lemma Rounding(numerator: nat)
    ensures
      var rounded := Truncated(numerator + 1_825_000, 3_650_000);
      -1_825_000 < 3_650_000 * rounded - numerator <= 1_825_000
  {
  }

  /** Rounded interest is within half a cent of the exact amount, and exactly half a cent rounds up. */
  lemma InterestIsRounded(principal: nat, aprBps: nat, days: nat)
    ensures -1_825_000 < 3_650_000 * Interest(principal, aprBps, days) - principal * aprBps * days <= 1_825_000
  {
    assert principal * aprBps >= 0;
    assert principal * aprBps * days >= 0;
    Rounding(principal * aprBps * days);
  }

  lemma MoreDays(rate: nat, days: nat, more: nat)
    requires days <= more
    ensures rate * days <= rate * more
  {
  }

  /** A later date never lowers the interest. */
  lemma InterestGrows(principal: nat, aprBps: nat, days: nat, more: nat)
    requires days <= more
    ensures Interest(principal, aprBps, days) <= Interest(principal, aprBps, more)
  {
    assert principal * aprBps >= 0;
    MoreDays(principal * aprBps, days, more);
    InterestIsRounded(principal, aprBps, days);
    InterestIsRounded(principal, aprBps, more);
  }

  /** Quoting a period in two parts differs by at most one cent from quoting it whole. */
  lemma SplittingCostsACent(principal: nat, aprBps: nat, first: nat, second: nat)
    ensures
      var whole := Interest(principal, aprBps, first + second);
      var parts := Interest(principal, aprBps, first) + Interest(principal, aprBps, second);
      -1 <= whole - parts <= 1
  {
    var rate := principal * aprBps;
    assert rate * (first + second) == rate * first + rate * second;
    InterestIsRounded(principal, aprBps, first);
    InterestIsRounded(principal, aprBps, second);
    InterestIsRounded(principal, aprBps, first + second);
  }

  /** A quote adds up, and its interest is exact to half a cent. */
  predicate Fair(quoted: Result<Payoff, Fault>, aprBps: int) {
    quoted.Ok? ==>
      var q := quoted.value;
      && q.total == q.principal + q.accrued + q.interest && q.principal >= 0 && 0 <= q.days <= 30
      && -1_825_000 < 3_650_000 * q.interest - q.principal * aprBps * q.days <= 1_825_000
  }

  lemma QuoteIsFair(bank: Bank, memberId: Id, account: Account, date: string)
    requires Solvent(bank) && Owned(bank, memberId, account.id) == Ok(account) && account.aprBps >= 0
    ensures Fair(PayoffOf(bank, memberId, account.id, date), account.aprBps)
  {
    var quoted := PayoffOf(bank, memberId, account.id, date);
    if quoted.Ok? {
      LedgerWithinTotal(bank, account);
      InterestIsRounded(Ledger(bank, account), account.aprBps, quoted.value.days);
    }
  }

  /** In every later state of a solvent bank every loan quote is fair. */
  lemma QuotesAreFair(bank: Bank, events: seq<Event>, limit: nat, memberId: Id, account: Account, date: string)
    requires Solvent(bank) && Bounded(bank, limit)
    requires Owned(bank, memberId, account.id) == Ok(account) && account.aprBps >= 0
    ensures Fair(PayoffOf(Run(bank, events), memberId, account.id, date), account.aprBps)
  {
    QuotesNeverVary(bank, events, limit, memberId, account.id, date);
    QuoteIsFair(bank, memberId, account, date);
  }
}
