/** The teller's workspace: a command is reviewed on a detached state first and posted only when confirmed. */
module Workspace {
  import opened Prelude
  import opened Bank
  import opened BankSeed

  datatype Page =
    | InquiryPage | MemberPage | AccountsPage | TransactionsPage | TransactionPage | TransfersPage | CardsPage
    | CardPage | HoldsPage | LoansPage | CasesPage | CasePage | JournalPage | SettingsPage | ReviewPage | ReceiptPage

  /** Pages of the menu, and those of them that need no member. */
  const NAVIGABLE := {InquiryPage, MemberPage, AccountsPage, TransactionsPage, TransfersPage, CardsPage, HoldsPage,
                      LoansPage, CasesPage, JournalPage, SettingsPage}
  const MEMBERLESS := {InquiryPage, JournalPage, SettingsPage}

  datatype Filter = Filter(text: string, start: string, end: string, status: string)

  const NO_FILTER := Filter("", "", "", "All")

  datatype Pending = Pending(
    command: Command,
    key: string,
    revision: nat,
    receipt: Receipt,
    returnPage: Page,
    returnFields: map<string, string>)

  datatype Workspace = Workspace(
    bank: Bank,
    page: Page,
    memberId: Id,
    accountId: Id,
    selectedId: Id,
    fields: map<string, string>,
    query: string,
    filter: Filter,
    error: string,
    noticeAccepted: seq<Id>,
    requestNumber: nat,
    pending: Option<Pending>,
    receipt: Option<Receipt>)

  datatype Action =
    | Nav(page: Page)
    | Search
    | PickMember(member: Id)
    | Acknowledge
    | PickAccount(account: Id)
    | PickTransaction(transaction: Id)
    | PickCard(card: Id)
    | PickCase(item: Id)
    | ApplyFilter
    | ClearFilter
    | ChangeRole
    | Cancel
    | Confirm
    | ReviewTransfer
    | SwitchCard(lock: bool)
    | ReviewHold
    | ReviewRelease(hold: Id)
    | ReviewQuote
    | ReviewCase
    | ReviewResolve
    | Edit(key: string, value: string)
    | Other

  function CreateWorkspace(tenant: Tenant): Workspace {
    Workspace(CreateBank(tenant), InquiryPage, "", "", "", map["query" := "", "role" := "servicing"], "", NO_FILTER, "",
              [], 1, None, None)
  }

  function Field(ws: Workspace, key: string): string {
    if key in ws.fields then ws.fields[key] else ""
  }

  // ---------------------------------------------------------------- entering a page

  function Options(accounts: seq<Account>, memberId: Id, loans: bool): seq<Id> {
    if accounts == [] then [] else
    (if accounts[0].memberId == memberId && (accounts[0].kind == AutoLoan) == loans then [accounts[0].id] else [])
      + Options(accounts[1..], memberId, loans)
  }

  function FirstOf(ids: seq<Id>): Id {
    if ids == [] then "" else ids[0]
  }

  function FirstOther(ids: seq<Id>, id: Id): Id {
    if ids == [] then "" else if ids[0] != id then ids[0] else FirstOther(ids[1..], id)
  }

  function RoleName(role: Role): string {
    match role case Servicing => "servicing" case Inquiry => "inquiry" case Supervisor => "supervisor"
  }

  function RoleNamed(name: string): Option<Role> {
    if name == "inquiry" then Some(Inquiry)
    else if name == "servicing" then Some(Servicing)
    else if name == "supervisor" then Some(Supervisor)
    else None
  }

  /** Every page but a detail page is entered through here, which drops an operation under review. */
  function Enter(ws: Workspace, page: Page): Workspace {
    var ws :=
      if page == InquiryPage then ws.(memberId := "", accountId := "", selectedId := "", receipt := None,
                                      filter := NO_FILTER) else ws;
    var deposits := Options(ws.bank.accounts, ws.memberId, false);
    var selected := if ws.accountId in deposits then ws.accountId else FirstOf(deposits);
    ws.(page := page, error := "", pending := None,
        fields := map["query" := ws.query, "account" := selected, "fromAccount" := selected,
                      "toAccount" := FirstOther(deposits, selected),
                      "loan" := FirstOf(Options(ws.bank.accounts, ws.memberId, true)),
                      "quoteDate" := ws.bank.businessDate, "text" := ws.filter.text, "startDate" := ws.filter.start,
                      "endDate" := ws.filter.end, "postingStatus" := ws.filter.status,
                      "category" := "Transaction inquiry", "role" := RoleName(ws.bank.role)])
  }

  // ---------------------------------------------------------------- reviewing

  predicate After(a: string, b: string) {
    if a == "" then false else if b == "" then true
    else if a[0] != b[0] then a[0] > b[0] else After(a[1..], b[1..])
  }

  function Key(n: nat): string {
    "request-" + PadStart(Decimal(n), 8)
  }

  /** The command a review action stands for, read off the form. */
  function Proposed(ws: Workspace, action: Action): Option<Command> {
    match action
    case ReviewTransfer =>
      Some(Transfer(ws.memberId, Field(ws, "fromAccount"), Field(ws, "toAccount"), Field(ws, "amount"),
                    Field(ws, "memo")))
    case SwitchCard(lock) => Some(SetCard(ws.memberId, ws.selectedId, if lock then Locked else Active,
                                          Field(ws, "reason")))
    case ReviewHold => Some(PlaceHold(ws.memberId, Field(ws, "account"), Field(ws, "amount"), Field(ws, "reason")))
    case ReviewRelease(hold) => Some(ReleaseHold(ws.memberId, hold, Field(ws, "reason")))
    case ReviewQuote => Some(Quote(ws.memberId, Field(ws, "loan"), Field(ws, "quoteDate")))
    case ReviewCase => Some(OpenCase(ws.memberId, Field(ws, "account"), Field(ws, "category"), Field(ws, "subject")))
    case ReviewResolve => Some(Resolve(ws.memberId, ws.selectedId, Field(ws, "resolution")))
    case _ => None
  }

  predicate NoticeOpen(ws: Workspace) {
    var member := FindMember(ws.bank.members, ws.memberId);
    member.Some? && member.value.notice != "" && member.value.id !in ws.noticeAccepted
  }

  function Review(ws: Workspace, command: Command): Workspace {
    if NoticeOpen(ws) then ws.(error := "review_notice") else
    var preview := Execute(ws.bank, command, Key(ws.requestNumber), ws.bank.revision);
    match preview
    case Err(code) => ws.(error := code)
    case Ok((_, receipt)) =>
      ws.(page := ReviewPage, error := "", requestNumber := ws.requestNumber + 1,
          pending := Some(Pending(command, Key(ws.requestNumber), ws.bank.revision, receipt, ws.page, ws.fields)))
  }

  function Confirmed(ws: Workspace, p: Pending): Workspace {
    match Execute(ws.bank, p.command, p.key, p.revision)
    case Err(code) => ws.(error := code)
    case Ok((bank, receipt)) => ws.(bank := bank, page := ReceiptPage, receipt := Some(receipt), pending := None,
                                    error := "")
  }

  function Filtered(ws: Workspace): Workspace {
    var start, end := Field(ws, "startDate"), Field(ws, "endDate");
    if (start != "" && ParseDate(start).Err?) || (end != "" && ParseDate(end).Err?) then ws.(error := "invalid_date")
    else if start != "" && end != "" && After(start, end) then ws.(error := "invalid_range")
    else
      var status := if "postingStatus" in ws.fields then ws.fields["postingStatus"] else "All";
      ws.(accountId := Field(ws, "account"), filter := Filter(Field(ws, "text"), start, end, status), error := "")
  }

  function Act(ws: Workspace, action: Action): Workspace {
    match action
    case Nav(page) =>
      if page !in NAVIGABLE then ws
      else if page !in MEMBERLESS && ws.memberId == "" then ws.(error := "member_required")
      else Enter(ws, page)
    case Search => ws.(query := Trim(Field(ws, "query")), error := "")
    case PickMember(id) =>
      if FindMember(ws.bank.members, id).None? then ws
      else Enter(ws.(memberId := id, accountId := id + "-01", selectedId := "", filter := NO_FILTER), MemberPage)
    case Acknowledge => ws.(noticeAccepted := ws.noticeAccepted + [ws.memberId])
    case PickAccount(id) => Enter(ws.(accountId := id), TransactionsPage)
    case PickTransaction(id) => ws.(page := TransactionPage, selectedId := id, error := "")
    case PickCard(id) => ws.(page := CardPage, selectedId := id, fields := map["reason" := ""], error := "")
    case PickCase(id) => ws.(page := CasePage, selectedId := id, fields := map["resolution" := ""], error := "")
    case ApplyFilter => Filtered(ws)
    case ClearFilter => Enter(ws.(filter := NO_FILTER), TransactionsPage)
    case ChangeRole =>
      var role := RoleNamed(Field(ws, "role"));
      if role.None? then ws else ws.(bank := ws.bank.(role := role.value), error := "", pending := None)
    case Cancel =>
      if ws.pending.None? then Enter(ws, MemberPage)
      else Enter(ws, ws.pending.value.returnPage).(fields := ws.pending.value.returnFields)
    case Confirm => if ws.pending.None? then ws else Confirmed(ws, ws.pending.value)
    case Edit(key, value) => ws.(fields := ws.fields[key := value])
    case _ =>
      var command := Proposed(ws, action);
      if command.None? then ws else Review(ws, command.value)
  }

  function From(ws: Workspace, actions: seq<Action>): Workspace {
    if actions == [] then ws else Act(From(ws, actions[..|actions| - 1]), actions[|actions| - 1])
  }

  function Session(tenant: Tenant, actions: seq<Action>): Workspace {
    From(CreateWorkspace(tenant), actions)
  }

  // ---------------------------------------------------------------- request keys

  lemma KeysDiffer(m: nat, n: nat)
    requires Key(m) == Key(n)
    ensures m == n
  {
    PaddedNumber(m, 8);
    PaddedNumber(n, 8);
    assert Key(m)[|"request-"|..] == PadStart(Decimal(m), 8);
    assert Key(n)[|"request-"|..] == PadStart(Decimal(n), 8);
  }

  /** How many request numbers may have been completed: an operation under review holds the last one. */
  function Spent(ws: Workspace): nat {
    if ws.pending.Some? && ws.requestNumber > 0 then ws.requestNumber - 1 else ws.requestNumber
  }

  ghost predicate KeysBelow(completed: map<string, Done>, bound: nat) {
    forall key <- completed :: exists n: nat :: n < bound && key == Key(n)
  }

  lemma KeyIsNew(completed: map<string, Done>, bound: nat, n: nat)
    requires KeysBelow(completed, bound) && bound <= n
    ensures Key(n) !in completed
  {
    if Key(n) in completed {
      var m: nat :| m < bound && Key(n) == Key(m);
      KeysDiffer(m, n);
    }
  }

  // ---------------------------------------------------------------- what every session keeps

  /** The member is known, and a notice on the record was acknowledged. */
  predicate Noticed(ws: Workspace, id: Id) {
    var member := FindMember(ws.bank.members, id);
    member.Some? && (member.value.notice != "" ==> id in ws.noticeAccepted)
  }

  predicate Previewed(ws: Workspace, p: Pending) {
    && p.revision == ws.bank.revision
    && p.key == Key(Spent(ws)) && p.key !in ws.bank.completed
    && Noticed(ws, p.command.memberId)
    && var shown := Execute(ws.bank, p.command, p.key, p.revision);
       shown.Ok? && shown.value.1 == p.receipt
  }

  ghost predicate Kept(ws: Workspace) {
    && ws.requestNumber >= 1
    && ws.bank.revision == |ws.bank.journal| == |ws.bank.completed|
    && KeysBelow(ws.bank.completed, Spent(ws))
    && (forall e <- ws.bank.journal :: Noticed(ws, e.memberId))
    && (ws.pending.Some? ==> Previewed(ws, ws.pending.value))
  }

  /** The bank, the requests and the notices, which only grow; a review is kept or dropped. */
  ghost predicate SameMatters(ws: Workspace, next: Workspace) {
    && next.bank == ws.bank && next.requestNumber == ws.requestNumber && ws.noticeAccepted <= next.noticeAccepted
    && (next.pending == ws.pending || next.pending.None?)
  }

  lemma NoticesStay(ws: Workspace, next: Workspace, id: Id)
    requires Noticed(ws, id) && next.bank.members == ws.bank.members && ws.noticeAccepted <= next.noticeAccepted
    ensures Noticed(next, id)
  {
  }

  lemma PreviewStays(ws: Workspace, next: Workspace, p: Pending)
    requires Previewed(ws, p) && SameMatters(ws, next) && next.pending == ws.pending
    ensures Previewed(next, p)
  {
    NoticesStay(ws, next, p.command.memberId);
  }

  lemma KeysStayBelow(completed: map<string, Done>, bound: nat, more: nat)
    requires KeysBelow(completed, bound) && bound <= more
    ensures KeysBelow(completed, more)
  {
    forall key <- completed ensures exists n: nat :: n < more && key == Key(n) {
      var n: nat :| n < bound && key == Key(n);
      assert n < more && key == Key(n);
    }
  }

  /** Apart from the bank, the notices and the request being reviewed, a workspace is only a view. */
  lemma ViewKeeps(ws: Workspace, next: Workspace)
    requires Kept(ws) && SameMatters(ws, next)
    ensures Kept(next)
  {
    KeysStayBelow(ws.bank.completed, Spent(ws), Spent(next));
    forall e <- next.bank.journal ensures Noticed(next, e.memberId) {
      NoticesStay(ws, next, e.memberId);
    }
    if next.pending.Some? {
      PreviewStays(ws, next, next.pending.value);
    }
  }

  lemma OnlyViews(ws: Workspace, action: Action)
    requires !action.Confirm? && !action.ChangeRole? && Proposed(ws, action).None?
    ensures SameMatters(ws, Act(ws, action))
  {
  }

  lemma RoleKeeps(ws: Workspace, role: Role)
    requires Kept(ws)
    ensures Kept(ws.(bank := ws.bank.(role := role), error := "", pending := None))
  {
    var next := ws.(bank := ws.bank.(role := role), error := "", pending := None);
    ViewKeeps(ws, ws.(error := "", pending := None));
    forall e <- next.bank.journal ensures Noticed(next, e.memberId) {
      assert Noticed(ws, e.memberId);
    }
  }

  lemma ReviewKeeps(ws: Workspace, command: Command)
    requires Kept(ws) && command.memberId == ws.memberId
    ensures Kept(Review(ws, command))
  {
    var next := Review(ws, command);
    ViewKeeps(ws, ws.(error := next.error));
    if next.requestNumber != ws.requestNumber {
      ViewKeeps(ws, ws.(pending := None));
      KeyIsNew(ws.bank.completed, Spent(ws), ws.requestNumber);
      ExecuteIsNew(ws.bank, command, Key(ws.requestNumber), ws.bank.revision);
      assert Spent(next) == ws.requestNumber;
      assert Noticed(next, command.memberId);
      forall e <- next.bank.journal ensures Noticed(next, e.memberId) {
        assert Noticed(ws, e.memberId);
      }
    }
  }

  /** A command under an unused key that goes through adds one revision, one journal entry and one key. */
  lemma ExecuteIsNew(bank: Bank, c: Command, key: string, revision: int)
    requires key !in bank.completed && Execute(bank, c, key, revision).Ok?
    ensures
      var (next, receipt) := Execute(bank, c, key, revision).value;
      && FindMember(bank.members, c.memberId).Some? && next.members == bank.members
      && next.revision == bank.revision + 1
      && next.journal == bank.journal
        + [Entry(receipt.reference, receipt.title, c.memberId, bank.role, bank.businessDate)]
      && next.completed == bank.completed[key := Done(c, receipt)]
      && |next.completed| == |bank.completed| + 1
  {
    var (next, receipt) := Execute(bank, c, key, revision).value;
    assert next.completed.Keys == bank.completed.Keys + {key};
  }

  lemma PostKeeps(ws: Workspace)
    requires Kept(ws) && ws.pending.Some?
    ensures Kept(Confirmed(ws, ws.pending.value))
  {
    var p, next := ws.pending.value, Confirmed(ws, ws.pending.value);
    ExecuteIsNew(ws.bank, p.command, p.key, p.revision);
    forall key <- next.bank.completed ensures exists n: nat :: n < Spent(next) && key == Key(n) {
      if key == p.key {
        assert Spent(ws) < Spent(next) && key == Key(Spent(ws));
      } else {
        var n: nat :| n < Spent(ws) && key == Key(n);
        assert n < Spent(next) && key == Key(n);
      }
    }
    forall e <- next.bank.journal ensures Noticed(next, e.memberId) {
      assert e in ws.bank.journal || e.memberId == p.command.memberId;
      assert Noticed(ws, e.memberId);
    }
  }

  lemma ActKeeps(ws: Workspace, action: Action)
    requires Kept(ws)
    ensures Kept(Act(ws, action))
  {
    if action.Confirm? {
      if ws.pending.Some? {
        PostKeeps(ws);
      }
    } else if action.ChangeRole? {
      var role := RoleNamed(Field(ws, "role"));
      if role.Some? {
        RoleKeeps(ws, role.value);
      }
    } else if Proposed(ws, action).Some? {
      ReviewKeeps(ws, Proposed(ws, action).value);
    } else {
      OnlyViews(ws, action);
      ViewKeeps(ws, Act(ws, action));
    }
  }

  lemma {:induction false} FromKeeps(ws: Workspace, actions: seq<Action>)
    requires Kept(ws)
    ensures Kept(From(ws, actions))
  {
    if actions != [] {
      FromKeeps(ws, actions[..|actions| - 1]);
      ActKeeps(From(ws, actions[..|actions| - 1]), actions[|actions| - 1]);
    }
  }

  lemma SessionKeeps(tenant: Tenant, actions: seq<Action>)
    ensures Kept(Session(tenant, actions))
  {
    FromKeeps(CreateWorkspace(tenant), actions);
  }

  /** What confirming an operation under review does. */
  ghost predicate PostsAsShown(ws: Workspace, p: Pending, next: Workspace) {
    && p.key !in ws.bank.completed
    && next.error == "" && next.page == ReceiptPage && next.pending.None? && next.receipt == Some(p.receipt)
    && next.bank.completed == ws.bank.completed[p.key := Done(p.command, p.receipt)]
    && next.bank.journal == ws.bank.journal
         + [Entry(p.receipt.reference, p.receipt.title, p.command.memberId, ws.bank.role, ws.bank.businessDate)]
  }

  lemma PreviewedPosts(ws: Workspace, p: Pending)
    requires Previewed(ws, p)
    ensures PostsAsShown(ws, p, Confirmed(ws, p))
  {
    ExecuteIsNew(ws.bank, p.command, p.key, p.revision);
  }

  lemma ConfirmIsPosting(ws: Workspace)
    requires ws.pending.Some?
    ensures Act(ws, Confirm) == Confirmed(ws, ws.pending.value)
  {
  }

  lemma KeptConfirms(ws: Workspace, next: Workspace)
    requires Kept(ws) && ws.pending.Some? && next == Confirmed(ws, ws.pending.value)
    ensures PostsAsShown(ws, ws.pending.value, next)
  {
    PreviewedPosts(ws, ws.pending.value);
  }

  /**
  Every confirm posts exactly what was reviewed: in every session, whenever an operation is under review,
  confirming it goes through, shows the receipt that was previewed, and posts it once, under a key never
  used before.
  */
  lemma ConfirmPostsWhatWasShown(tenant: Tenant, actions: seq<Action>)
    requires Session(tenant, actions).pending.Some?
    ensures
      var ws := Session(tenant, actions);
      PostsAsShown(ws, ws.pending.value, Act(ws, Confirm))
  {
    SessionKeeps(tenant, actions);
    ConfirmIsPosting(Session(tenant, actions));
    KeptConfirms(Session(tenant, actions), Act(Session(tenant, actions), Confirm));
  }

  /** In every session the revision counts the journal and the completed keys, and no journalled notice went unread. */
  lemma SessionsAreAccounted(tenant: Tenant, actions: seq<Action>)
    ensures
      var ws := Session(tenant, actions);
      && ws.bank.revision == |ws.bank.journal| == |ws.bank.completed|
      && (forall e <- ws.bank.journal :: Noticed(ws, e.memberId))
  {
    SessionKeeps(tenant, actions);
  }

  // ---------------------------------------------------------------- what is reviewed is what was entered

  function Entered(fields: map<string, string>, key: string): string {
    if key in fields then fields[key] else ""
  }

  /** The command holds what the form held when it was reviewed, which is kept for a return. */
  predicate Filled(p: Pending) {
    var form := p.returnFields;
    match p.command
    case Transfer(_, source, target, amount, memo) =>
      && source == Entered(form, "fromAccount") && target == Entered(form, "toAccount")
      && amount == Entered(form, "amount") && memo == Entered(form, "memo")
    case SetCard(_, _, desired, reason) => desired in {Locked, Active} && reason == Entered(form, "reason")
    case PlaceHold(_, account, amount, reason) =>
      && account == Entered(form, "account") && amount == Entered(form, "amount") && reason == Entered(form, "reason")
    case ReleaseHold(_, _, reason) => reason == Entered(form, "reason")
    case Quote(_, loan, date) => loan == Entered(form, "loan") && date == Entered(form, "quoteDate")
    case OpenCase(_, account, category, subject) =>
      && account == Entered(form, "account") && category == Entered(form, "category")
      && subject == Entered(form, "subject")
    case Resolve(_, _, resolution) => resolution == Entered(form, "resolution")
  }

  /** What is under review is for the member at hand, with what was entered. */
  predicate FormKept(ws: Workspace) {
    ws.pending.Some? ==> Filled(ws.pending.value) && ws.pending.value.command.memberId == ws.memberId
  }

  lemma ActKeepsForm(ws: Workspace, action: Action)
    requires FormKept(ws)
    ensures FormKept(Act(ws, action))
  {
    if Proposed(ws, action).Some? {
      ReviewKeepsForm(ws, action);
    }
  }

  lemma ReviewKeepsForm(ws: Workspace, action: Action)
    requires FormKept(ws) && Proposed(ws, action).Some?
    ensures FormKept(Review(ws, Proposed(ws, action).value))
  {
  }

  lemma {:induction false} FromKeepsForm(ws: Workspace, actions: seq<Action>)
    requires FormKept(ws)
    ensures FormKept(From(ws, actions))
  {
    if actions != [] {
      FromKeepsForm(ws, actions[..|actions| - 1]);
      ActKeepsForm(From(ws, actions[..|actions| - 1]), actions[|actions| - 1]);
    }
  }

  /** In every session an operation under review is for the member at hand and holds what the teller had entered. */
  lemma SessionsReviewTheForm(tenant: Tenant, actions: seq<Action>)
    ensures FormKept(Session(tenant, actions))
  {
    FromKeepsForm(CreateWorkspace(tenant), actions);
  }

  /** The command that each review stands for, on the record that is selected and with the form as it is. */
  predicate Asks(ws: Workspace, action: Action, c: Command) {
    match action
    case ReviewTransfer => c.Transfer?
    case SwitchCard(lock) => c.SetCard? && c.cardId == ws.selectedId && c.desired == (if lock then Locked else Active)
    case ReviewHold => c.PlaceHold?
    case ReviewRelease(hold) => c.ReleaseHold? && c.holdId == hold
    case ReviewQuote => c.Quote?
    case ReviewCase => c.OpenCase?
    case ReviewResolve => c.Resolve? && c.caseId == ws.selectedId
    case _ => false
  }

  /** A request number is only used up by a review, and what is then under review is what the action asks for. */
  lemma ReviewIsWhatWasAsked(ws: Workspace, action: Action)
    requires FormKept(ws) && Act(ws, action).requestNumber != ws.requestNumber
    ensures
      var next := Act(ws, action);
      && next.page == ReviewPage && next.requestNumber == ws.requestNumber + 1 && next.bank == ws.bank
      && next.pending.Some? && Asks(ws, action, next.pending.value.command) && Filled(next.pending.value)
      && next.pending.value.returnFields == ws.fields && next.pending.value.command.memberId == ws.memberId
  {
  }

  // ---------------------------------------------------------------- a session is a run of the bank

  function EventOf(ws: Workspace, action: Action): seq<Event> {
    match action
    case Confirm => if ws.pending.None? then []
      else [Post(ws.pending.value.command, ws.pending.value.key, ws.pending.value.revision)]
    case ChangeRole => if RoleNamed(Field(ws, "role")).None? then [] else [Become(RoleNamed(Field(ws, "role")).value)]
    case _ => []
  }

  function EventsFrom(ws: Workspace, actions: seq<Action>): seq<Event> {
    if actions == [] then [] else
    EventsFrom(ws, actions[..|actions| - 1]) + EventOf(From(ws, actions[..|actions| - 1]), actions[|actions| - 1])
  }

  lemma ActIsStep(ws: Workspace, action: Action)
    ensures
      var events := EventOf(ws, action);
      Act(ws, action).bank == if events == [] then ws.bank else Step(ws.bank, events[0])
    ensures |EventOf(ws, action)| <= 1
  {
  }

  lemma {:induction false} FromIsRun(ws: Workspace, actions: seq<Action>)
    ensures From(ws, actions).bank == Run(ws.bank, EventsFrom(ws, actions))
  {
    if actions != [] {
      var before, action := From(ws, actions[..|actions| - 1]), actions[|actions| - 1];
      FromIsRun(ws, actions[..|actions| - 1]);
      ActIsStep(before, action);
      var earlier, event := EventsFrom(ws, actions[..|actions| - 1]), EventOf(before, action);
      if event == [] {
        assert earlier + event == earlier;
      } else {
        assert (earlier + event)[..|earlier|] == earlier && (earlier + event)[|earlier|] == event[0];
      }
    }
  }

  /** Whatever is clicked and typed, no account is overdrawn and no money appears or disappears. */
  lemma SessionsConserveMoney(tenant: Tenant, actions: seq<Action>, a: Account)
    requires a in CreateBank(tenant).accounts
    ensures
      var bank := Session(tenant, actions).bank;
      TotalLedger(bank) == TotalLedger(CreateBank(tenant)) && 0 <= Available(bank, a) <= Ledger(bank, a) <= LIMIT
  {
    var ws := CreateWorkspace(tenant);
    FromIsRun(ws, actions);
    SessionConserves(tenant, EventsFrom(ws, actions), a);
  }
}
