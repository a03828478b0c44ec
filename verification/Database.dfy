/** The database as an object: its tables are fields, a service method is a transaction that updates them
    step by step, and a transaction that throws puts everything back. */
module Databases {
  import opened Common
  import opened Games
  import opened Wallets
  import opened Registering

  class Database {
    var now: int
    var catalog: nat
    var slots: seq<Slot>
    var sessions: seq<Session>
    var books: Books
    var tasks: multiset<Task>

    constructor (st: State)
      ensures View() == st
    {
      now := st.now;
      catalog := st.catalog;
      slots := st.slots;
      sessions := st.sessions;
      books := st.books;
      tasks := st.tasks;
    }

    function View(): State
      reads this
    {
      State(now, catalog, slots, sessions, books, tasks)
    }

    /** What a thrown error does to a transaction that began at `start`. */
    method Rollback(start: State)
      modifies this
      ensures View() == start
    {
      now := start.now;
      catalog := start.catalog;
      slots := start.slots;
      sessions := start.sessions;
      books := start.books;
      tasks := start.tasks;
    }

    method UpdateSession(sid: nat, session: Session)
      requires sid < |sessions|
      modifies this`sessions
      ensures sessions == old(sessions)[sid := session]
    {
      sessions := sessions[sid := session];
    }

    method UpdateSlot(slotId: nat, slot: Slot)
      requires slotId < |slots|
      modifies this`slots
      ensures slots == old(slots)[slotId := slot]
    {
      slots := slots[slotId := slot];
    }

    /** Insert a registration; its id is its position. */
    method CreateRegistration(sid: nat, row: Registration) returns (index: nat)
      requires sid < |sessions|
      modifies this`sessions
      ensures index == |old(sessions)[sid].registrations|
      ensures var session := old(sessions)[sid];
        sessions == old(sessions)[sid := session.(registrations := session.registrations + [row])]
    {
      index := |sessions[sid].registrations|;
      sessions := sessions[sid := sessions[sid].(registrations := sessions[sid].registrations + [row])];
    }

    method CreditWallet(user: nat, amount: int, key: LedgerKey) returns (error: Option<WalletError>)
      modifies this`books
      ensures error
        == (match Wallets.CreditWallet(old(books), user, amount, key)
            case Failure(e) => Some(e) case Success(_) => None)
      ensures books == if error.None? then Wallets.CreditWallet(old(books), user, amount, key).value else old(books)
    {
      if amount <= 0 {
        return Some(AmountNotPositive);
      }
      if key in books.ledger {
        return None;
      }
      if user >= |books.wallets| {
        return Some(WalletNotFound);
      }
      var wallet := books.wallets[user];
      books := books.(wallets := books.wallets[user := wallet.(money := wallet.money + amount)]);
      books := books.(ledger := books.ledger[key := amount]);
      return None;
    }

    method DebitWallet(user: nat, amount: int, key: LedgerKey) returns (error: Option<WalletError>)
      modifies this`books
      ensures error
        == (match Wallets.DebitWallet(old(books), user, amount, key) case Failure(e) => Some(e) case Success(_) => None)
      ensures books == if error.None? then Wallets.DebitWallet(old(books), user, amount, key).value else old(books)
    {
      if amount <= 0 {
        return Some(AmountNotPositive);
      }
      if key in books.ledger {
        return None;
      }
      if user >= |books.wallets| {
        return Some(WalletNotFound);
      }
      var wallet := books.wallets[user];
      if wallet.money < amount {
        return Some(InsufficientFunds);
      }
      books := books.(wallets := books.wallets[user := wallet.(money := wallet.money - amount)]);
      books := books.(ledger := books.ledger[key := amount]);
      return None;
    }

    method ConsumeBonusCartela(user: nat) returns (error: Option<WalletError>)
      modifies this`books
      ensures error
        == (match Wallets.ConsumeBonusCartela(old(books), user) case Failure(e) => Some(e) case Success(_) => None)
      ensures books == if error.None? then Wallets.ConsumeBonusCartela(old(books), user).value else old(books)
    {
      if user >= |books.wallets| {
        return Some(WalletNotFound);
      }
      var wallet := books.wallets[user];
      if wallet.bonus < 1 {
        return Some(InsufficientFunds);
      }
      books := books.(wallets := books.wallets[user := wallet.(bonus := wallet.bonus - 1)]);
      return None;
    }

    method ApplyRegistrationPayment(user: nat, sid: nat, index: nat, session: Session, source: PaymentSource)
      returns (error: Option<WalletError>)
      modifies this`books
      ensures error
        == (match ApplyPayment(old(books), user, sid, index, session, source)
            case Failure(e) => Some(e) case Success(_) => None)
      ensures books
        == if error.None? then ApplyPayment(old(books), user, sid, index, session, source).value else old(books)
      ensures error.None? && user < |old(books).wallets| && GameEntry(user, sid, index) !in old(books).ledger ==>
        && |books.wallets| == |old(books).wallets|
        && (forall u | 0 <= u < |books.wallets| && u != user :: books.wallets[u] == old(books).wallets[u])
        && books.wallets[user].money
          == old(books).wallets[user].money - (if source.MoneyWallet? then session.entryFee else 0)
        && books.wallets[user].bonus == old(books).wallets[user].bonus - (if source.BonusCartela? then 1 else 0)
        && (GameEntry(user, sid, index) in books.ledger <==> source.MoneyWallet?)
    {
      match source {
        case NoPayment => error := None;
        case BonusCartela => error := ConsumeBonusCartela(user);
        case MoneyWallet => error := DebitWallet(user, session.entryFee, GameEntry(user, sid, index));
      }
    }
  }
}
