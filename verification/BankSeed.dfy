/** The bank a session starts with, and the proof that it starts solvent and far from the limits of machine numbers. */
module BankSeed {
  import opened Prelude
  import opened Bank

  const MEMBERS: seq<Member> := [
    Member("12345", "Alex Morgan", false, ""),
    Member("12346", "Alexandra Morgan", false, ""),
    Member("23456", "Jordan Patel", false, "Address review outstanding. Confirm the member record before proceeding."),
    Member("34567", "Taylor Chen", true, "Restricted servicing. Contact branch supervisor."),
    Member("45678", "Sam Rivera", false, ""),
    Member("56789", "Morgan Lee", false, "")]

  const REVERSED: seq<Member> := [MEMBERS[5], MEMBERS[4], MEMBERS[3], MEMBERS[2], MEMBERS[1], MEMBERS[0]]

  function AccountsOf(m: Member, i: nat): seq<Account>
    requires i < 6
  {
    [Account(m.id + "-01", m.id, Checking, PadStart(Decimal(110 + i * 113), 4), 245000 + i * 37115, true, 0, 0),
     Account(m.id + "-02", m.id, Savings, PadStart(Decimal(421 + i * 117), 4), 142057 + i * 72500, i != 4, 0, 0),
     Account(m.id + "-03", m.id, AutoLoan, Decimal(9902 - i * 131), 780000 + i * 120000, true, 725, 2140)]
  }

  function PostingsOf(m: Member, i: nat): seq<Posting> {
    [Posting(m.id + "-P1", m.id + "-01", "2026-09-11", "ACH CREDIT / PAYROLL NORTHSTAR", 185000 + i * 2000,
             true, "ACH-" + Decimal(1001 + i)),
     Posting(m.id + "-P2", m.id + "-01", "2026-09-08", "NORTHWIND MARKET / POS PURCHASE", -8427, true,
             "POS-" + Decimal(80419 + i * 10)),
     Posting(m.id + "-P3", m.id + "-01", "2026-09-09", "NORTHWIND MARKET / POS PURCHASE", -3162, true,
             "POS-" + Decimal(80420 + i * 10)),
     Posting(m.id + "-P4", m.id + "-01", "2026-09-13", "CONTOSO FUEL / AUTHORIZATION", -5210, false,
             "AUTH-" + Decimal(7001 + i)),
     Posting(m.id + "-P5", m.id + "-01", "2026-09-10", "ONLINE PAYMENT / UTILITIES", -13749, true,
             "BILL-" + Decimal(4001 + i))]
  }

  function CardsOf(m: Member): seq<Card> {
    [Card(m.id + "-D1", m.id + "-01", "0110", m.name, Active),
     Card(m.id + "-D2", m.id + "-01", "7824", m.name + " / Joint", Locked),
     Card(m.id + "-D3", m.id + "-01", "9301", m.name, Expired)]
  }

  function HoldOf(m: Member, i: nat): Hold {
    Hold("AUTH-" + Decimal(7001 + i), m.id + "-01", 5210, "Contoso Fuel authorization", true)
  }

  function Accounts(ms: seq<Member>): seq<Account>
    requires |ms| <= 6
  {
    if ms == [] then [] else Accounts(ms[..|ms| - 1]) + AccountsOf(ms[|ms| - 1], |ms| - 1)
  }

  function Postings(ms: seq<Member>): seq<Posting> {
    if ms == [] then [] else Postings(ms[..|ms| - 1]) + PostingsOf(ms[|ms| - 1], |ms| - 1)
  }

  function Cards(ms: seq<Member>): seq<Card> {
    if ms == [] then [] else Cards(ms[..|ms| - 1]) + CardsOf(ms[|ms| - 1])
  }

  function Holds(ms: seq<Member>): seq<Hold> {
    if ms == [] then [] else Holds(ms[..|ms| - 1]) + [HoldOf(ms[|ms| - 1], |ms| - 1)]
  }

  const FIRST_CASE :=
    ServiceCase("CASE-2104", "12345", "12345-01", "Transaction inquiry",
                "Member requests duplicate merchant charge review", true, "")

  function CreateBank(tenant: Tenant): Bank {
    Bank(tenant, Servicing, "2026-09-13", 0, if tenant == Summit then REVERSED else MEMBERS,
         Accounts(MEMBERS), Postings(MEMBERS), Holds(MEMBERS), Cards(MEMBERS), [FIRST_CASE], [], map[])
  }

  // ---------------------------------------------------------------- its balances

  const TAILS: seq<string> := ["-01", "-02", "-03"]

  lemma SameIdentifier(a: string, b: string, s: string, t: string)
    requires |a| == |b| && a + s == b + t
    ensures a == b && s == t
  {
    assert (a + s)[..|a|] == a && (b + t)[..|b|] == b;
    assert (a + s)[|a|..] == s && (b + t)[|b|..] == t;
  }

  /** Few members, told apart by identifiers of one length. */
  ghost predicate Plain(ms: seq<Member>) {
    && 0 < |ms| <= 6
    && (forall i :: 0 <= i < |ms| ==> |ms[i].id| == 5)
    && (forall i, j :: 0 <= i < j < |ms| ==> ms[i].id != ms[j].id)
  }

  lemma IdentifiersDiffer(ms: seq<Member>, i: nat, j: nat, s: nat, t: nat)
    requires Plain(ms) && i < |ms| && j < |ms| && s < 3 && t < 3
    ensures ms[i].id + TAILS[s] == ms[j].id + TAILS[t] <==> i == j && s == t
  {
    if ms[i].id + TAILS[s] == ms[j].id + TAILS[t] {
      SameIdentifier(ms[i].id, ms[j].id, TAILS[s], TAILS[t]);
    }
  }

  lemma {:induction false} PostedSplit(a: seq<Posting>, b: seq<Posting>, id: Id)
    ensures PostedSum(a + b, id) == PostedSum(a, id) + PostedSum(b, id)
  {
    if b == [] {
      assert a + b == a;
    } else {
      assert (a + b)[..|a + b| - 1] == a + b[..|b| - 1];
      PostedSplit(a, b[..|b| - 1], id);
    }
  }

  lemma MemberPostings(m: Member, i: nat, id: Id)
    ensures PostedSum(PostingsOf(m, i), id) == if id == m.id + "-01" then 159662 + i * 2000 else 0
  {
    var p := PostingsOf(m, i);
    assert p == [p[0]] + [p[1]] + [p[2]] + [p[3]] + [p[4]];
    PostedOne([], p[0], id);
    assert [] + [p[0]] == [p[0]];
    PostedOne([p[0]], p[1], id);
    PostedOne([p[0]] + [p[1]], p[2], id);
    PostedOne([p[0]] + [p[1]] + [p[2]], p[3], id);
    PostedOne([p[0]] + [p[1]] + [p[2]] + [p[3]], p[4], id);
  }

  lemma NextPostings(ms: seq<Member>, n: nat, id: Id)
    requires 0 < n <= |ms|
    ensures PostedSum(Postings(ms[..n]), id)
         == PostedSum(Postings(ms[..n - 1]), id) + (if id == ms[n - 1].id + "-01" then 159662 + (n - 1) * 2000 else 0)
  {
    assert ms[..n][..n - 1] == ms[..n - 1];
    PostedSplit(Postings(ms[..n - 1]), PostingsOf(ms[n - 1], n - 1), id);
    MemberPostings(ms[n - 1], n - 1, id);
  }

  /** Only the checking account of each of the first `n` members has postings and a hold. */
  lemma {:induction false} SeedPostings(ms: seq<Member>, n: nat, j: nat, t: nat)
    requires Plain(ms) && n <= |ms| && j < |ms| && t < 3
    ensures PostedSum(Postings(ms[..n]), ms[j].id + TAILS[t]) == if j < n && t == 0 then 159662 + j * 2000 else 0
  {
    if n > 0 {
      SeedPostings(ms, n - 1, j, t);
      NextPostings(ms, n, ms[j].id + TAILS[t]);
      IdentifiersDiffer(ms, j, n - 1, t, 0);
    } else {
      assert ms[..0] == [];
    }
  }

  lemma NextHold(ms: seq<Member>, n: nat, id: Id)
    requires 0 < n <= |ms|
    ensures HeldSum(Holds(ms[..n]), id)
            == HeldSum(Holds(ms[..n - 1]), id) + (if id == ms[n - 1].id + "-01" then 5210 else 0)
  {
    assert ms[..n][..n - 1] == ms[..n - 1];
    HeldOne(Holds(ms[..n - 1]), HoldOf(ms[n - 1], n - 1), id);
  }

  lemma IsChecking(ms: seq<Member>, j: nat, t: nat, i: nat)
    requires Plain(ms) && j < |ms| && i < |ms| && t < 3
    ensures ms[j].id + TAILS[t] == ms[i].id + "-01" <==> j == i && t == 0
  {
    IdentifiersDiffer(ms, j, i, t, 0);
  }

  lemma {:induction false} SeedHolds(ms: seq<Member>, n: nat, j: nat, t: nat)
    requires Plain(ms) && n <= |ms| && j < |ms| && t < 3
    ensures HeldSum(Holds(ms[..n]), ms[j].id + TAILS[t]) == if j < n && t == 0 then 5210 else 0
  {
    if n > 0 {
      SeedHolds(ms, n - 1, j, t);
      var id := ms[j].id + TAILS[t];
      assert HeldSum(Holds(ms[..n]), id)
          == HeldSum(Holds(ms[..n - 1]), id) + (if j == n - 1 && t == 0 then 5210 else 0) by {
        NextHold(ms, n, id);
        IsChecking(ms, j, t, n - 1);
      }
    } else {
      NoHolds(ms, ms[j].id + TAILS[t]);
    }
  }

  lemma NoHolds(ms: seq<Member>, id: Id)
    ensures HeldSum(Holds(ms[..0]), id) == 0
  {
    assert ms[..0] == [];
  }

  lemma {:induction false} AccountAt(ms: seq<Member>, n: nat, i: nat, t: nat)
    requires Plain(ms) && i < n <= |ms| && t < 3
    ensures |Accounts(ms[..n])| == 3 * n && Accounts(ms[..n])[3 * i + t] == AccountsOf(ms[i], i)[t]
  {
    assert ms[..n][..n - 1] == ms[..n - 1];
    if n > 1 {
      AccountAt(ms, n - 1, if i < n - 1 then i else 0, t);
    }
  }

  lemma OneOfThree(m: Member, i: nat, t: nat)
    requires i < 6 && t < 3
    ensures AccountsOf(m, i)[t].id == m.id + TAILS[t] && 142_057 <= AccountsOf(m, i)[t].opening <= 1_500_000
  {
  }

  lemma AccountIs(ms: seq<Member>, k: nat)
    requires Plain(ms) && k < 3 * |ms|
    ensures |Accounts(ms)| == 3 * |ms|
    ensures Accounts(ms)[k].id == ms[k / 3].id + TAILS[k % 3] && 142_057 <= Accounts(ms)[k].opening <= 1_500_000
  {
    var i, t := k / 3, k % 3;
    assert ms[..|ms|] == ms && k == 3 * i + t;
    AccountAt(ms, |ms|, i, t);
    OneOfThree(ms[i], i, t);
  }

  function LedgerIn(ms: seq<Member>, a: Account): int {
    a.opening + PostedSum(Postings(ms), a.id)
  }

  lemma SeedBalance(ms: seq<Member>, a: Account)
    requires Plain(ms) && a in Accounts(ms)
    ensures 0 <= a.opening <= 2_000_000 && 0 <= LedgerIn(ms, a) <= 2_000_000
            && HeldSum(Holds(ms), a.id) <= LedgerIn(ms, a)
  {
    AccountIs(ms, 0);
    var k :| 0 <= k < |Accounts(ms)| && Accounts(ms)[k] == a;
    AccountIs(ms, k);
    assert ms[..|ms|] == ms;
    SeedPostings(ms, |ms|, k / 3, k % 3);
    SeedHolds(ms, |ms|, k / 3, k % 3);
  }

  lemma SeedIdentifiers(ms: seq<Member>)
    requires Plain(ms)
    ensures UniqueIds(Accounts(ms))
  {
    var accounts := Accounts(ms);
    AccountIs(ms, 0);
    forall i, j | 0 <= i < j < |accounts| ensures accounts[i].id != accounts[j].id {
      AccountIs(ms, i);
      AccountIs(ms, j);
      IdentifiersDiffer(ms, i / 3, j / 3, i % 3, j % 3);
    }
  }

  lemma {:induction false} TotalAtMost(accounts: seq<Account>, postings: seq<Posting>, most: nat)
    requires forall a <- accounts :: a.opening + PostedSum(postings, a.id) <= most
    ensures Total(accounts, postings) <= most * |accounts|
  {
    if accounts != [] {
      TotalAtMost(accounts[..|accounts| - 1], postings, most);
      assert most * |accounts| == most * (|accounts| - 1) + most;
    }
  }

  lemma {:induction false} SumAtMost(postings: seq<Posting>, id: Id, most: nat)
    requires forall p <- postings :: -(most as int) <= p.cents <= most
    ensures -(most * |postings|) <= PostedSum(postings, id) <= most * |postings|
  {
    if postings != [] {
      SumAtMost(postings[..|postings| - 1], id, most);
      assert most * |postings| == most * (|postings| - 1) + most;
    }
  }

  lemma {:induction false} SeedAmounts(ms: seq<Member>)
    requires |ms| <= 6
    ensures |Postings(ms)| == 5 * |ms|
    ensures forall p <- Postings(ms) :: -200_000 <= p.cents <= 200_000
    ensures forall h <- Holds(ms) :: h.cents >= 0
  {
    if ms != [] {
      SeedAmounts(ms[..|ms| - 1]);
    }
  }

  const LIMIT := 40_000_000

  lemma SeedPrefix(ms: seq<Member>, k: nat, id: Id)
    requires |ms| <= 6 && k <= |Postings(ms)|
    ensures -2 * LIMIT <= PostedSum(Postings(ms)[..k], id) <= 2 * LIMIT
  {
    SeedAmounts(ms);
    SumAtMost(Postings(ms)[..k], id, 200_000);
  }

  lemma SeedTotal(ms: seq<Member>)
    requires Plain(ms)
    ensures Total(Accounts(ms), Postings(ms)) <= LIMIT
  {
    forall a <- Accounts(ms) ensures a.opening + PostedSum(Postings(ms), a.id) <= 2_000_000 {
      SeedBalance(ms, a);
      assert LedgerIn(ms, a) <= 2_000_000;
    }
    AccountIs(ms, 0);
    TotalAtMost(Accounts(ms), Postings(ms), 2_000_000);
  }

  lemma SolventSeed(bank: Bank, ms: seq<Member>)
    requires Plain(ms) && bank.accounts == Accounts(ms) && bank.postings == Postings(ms) && bank.holds == Holds(ms)
    ensures Solvent(bank) && Bounded(bank, LIMIT)
  {
    SeedIdentifiers(ms);
    SeedAmounts(ms);
    SeedTotal(ms);
    forall a <- bank.accounts ensures Available(bank, a) >= 0 && 0 <= a.opening <= LIMIT {
      SeedBalance(ms, a);
      assert Ledger(bank, a) == LedgerIn(ms, a);
    }
    forall k: nat, a <- bank.accounts | k <= |bank.postings|
      ensures -2 * LIMIT <= PostedSum(bank.postings[..k], a.id) <= 2 * LIMIT
    {
      SeedPrefix(ms, k, a.id);
    }
  }

  lemma MembersArePlain()
    ensures Plain(MEMBERS)
  {
  }

  /** The first bank is solvent, so far from the limit that no sum it can ever need is inexact as a machine number. */
  lemma SeedIsSolvent(tenant: Tenant)
    ensures Solvent(CreateBank(tenant)) && Bounded(CreateBank(tenant), LIMIT)
    ensures 2 * LIMIT < 9_007_199_254_740_992
  {
    MembersArePlain();
    SolventSeed(CreateBank(tenant), MEMBERS);
  }

  /** Over every run from the first bank money is conserved, and every balance is an exact machine number. */
  lemma SessionConserves(tenant: Tenant, events: seq<Event>, a: Account)
    requires a in CreateBank(tenant).accounts
    ensures
      var first, later := CreateBank(tenant), Run(CreateBank(tenant), events);
      TotalLedger(later) == TotalLedger(first) && 0 <= Available(later, a) <= Ledger(later, a) <= LIMIT
  {
    SeedIsSolvent(tenant);
    MoneyIsConserved(CreateBank(tenant), events, LIMIT, a);
  }

  // ---------------------------------------------------------------- its references

  lemma {:induction false} HoldsAreNamed(ms: seq<Member>)
    ensures |Holds(ms)| == |ms|
    ensures forall i :: 0 <= i < |ms| ==> Holds(ms)[i].id == "AUTH-" + Decimal(7001 + i)
  {
    if ms != [] {
      HoldsAreNamed(ms[..|ms| - 1]);
    }
  }

  lemma AuthorizationsDiffer(i: nat, j: nat)
    requires "AUTH-" + Decimal(7001 + i) == "AUTH-" + Decimal(7001 + j)
    ensures i == j
  {
    SameIdentifier("AUTH-", "AUTH-", Decimal(7001 + i), Decimal(7001 + j));
    NumberOfDecimal(7001 + i);
    NumberOfDecimal(7001 + j);
  }

  lemma AuthorizationIsNoNumber(i: nat, tenant: Tenant, n: nat)
    ensures "AUTH-" + Decimal(7001 + i) != Numbered(tenant, n)
  {
    assert ("AUTH-" + Decimal(7001 + i))[0] == 'A' && Numbered(tenant, n)[0] in {'H', 'S'};
  }

  /** Fresh, for a bank that starts with these holds. */
  lemma FreshWith(bank: Bank, ms: seq<Member>)
    requires bank.holds == Holds(ms) && bank.journal == []
    ensures Fresh(bank)
  {
    HoldsAreNamed(ms);
    forall h <- bank.holds, n: nat | n > bank.revision ensures h.id != Numbered(bank.tenant, n) {
      var i: nat :| i < |bank.holds| && bank.holds[i] == h;
      AuthorizationIsNoNumber(i, bank.tenant, n);
    }
    forall i, j | 0 <= i < j < |bank.holds| ensures bank.holds[i].id != bank.holds[j].id {
      if bank.holds[i].id == bank.holds[j].id {
        AuthorizationsDiffer(i, j);
      }
    }
  }

  /** The first bank's authorizations carry a prefix of their own, so every reference is still to be given. */
  lemma SeedIsFresh(tenant: Tenant)
    ensures Fresh(CreateBank(tenant))
  {
    FreshWith(CreateBank(tenant), MEMBERS);
  }

  /** In every reachable bank holds and journal entries have references of their own, and the next one is new. */
  lemma SessionStaysFresh(tenant: Tenant, events: seq<Event>)
    ensures Fresh(Run(CreateBank(tenant), events))
  {
    SeedIsFresh(tenant);
    RunFresh(CreateBank(tenant), events);
  }
}
