/** Wallet mutations: an amount must be positive, and a ledger key is applied at most once. */
module Wallets {
  import opened Common
  import opened Games

  datatype WalletError = WalletNotFound | AmountNotPositive | InsufficientFunds

  function CreditWallet(books: Books, user: nat, amount: int, key: LedgerKey): Result<Books, WalletError> {
    if amount <= 0 then Failure(AmountNotPositive)
    else if key in books.ledger then Success(books)
    else if user >= |books.wallets| then Failure(WalletNotFound)
    else
      var wallet := books.wallets[user];
      Success(Books(books.wallets[user := wallet.(money := wallet.money + amount)], books.ledger[key := amount]))
  }

  function DebitWallet(books: Books, user: nat, amount: int, key: LedgerKey): Result<Books, WalletError> {
    if amount <= 0 then Failure(AmountNotPositive)
    else if key in books.ledger then Success(books)
    else if user >= |books.wallets| then Failure(WalletNotFound)
    else if books.wallets[user].money < amount then Failure(InsufficientFunds)
    else
      var wallet := books.wallets[user];
      Success(Books(books.wallets[user := wallet.(money := wallet.money - amount)], books.ledger[key := amount]))
  }

  function ConsumeBonusCartela(books: Books, user: nat): Result<Books, WalletError> {
    if user >= |books.wallets| then Failure(WalletNotFound)
    else if books.wallets[user].bonus < 1 then Failure(InsufficientFunds)
    else
      var wallet := books.wallets[user];
      Success(books.(wallets := books.wallets[user := wallet.(bonus := wallet.bonus - 1)]))
  }
}
