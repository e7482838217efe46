/** The console bank: ten preallocated accounts, a check of the account id
    typed at the prompt, and a menu that reads the balance of, withdraws from
    or deposits into that one account until the user chooses to leave.

    The console is abstracted: the rounds of the menu arrive as a sequence of
    `MenuInput`s, and what is printed is not modelled. */
module Bank {
  import opened Accounts

  /** Number of accounts the service preallocates. */
  const AccountCount := 10
  /** Starting balance of every preallocated account. */
  const InitialBalance := 10000.0

  /** The menu items. Any other number is answered with a message only. */
  const CheckBalance := 1
  const WithdrawItem := 2
  const DepositItem := 3
  const Exit := 4

  /** One round of the menu: the item typed and, for items 2 and 3, the amount
      typed after it (ignored for every other item). */
  datatype MenuInput = MenuInput(choice: int, amount: real)

  /** The balance of the selected account after one round of the menu: only a
      withdrawal or a deposit that its guard accepts changes it, by exactly the
      amount, and a non-negative balance stays non-negative. */
  function MenuStep(balance: real, input: MenuInput): (r: real)
    ensures r != balance <==>
              (input.choice == WithdrawItem && CanWithdraw(balance, input.amount)) ||
              (input.choice == DepositItem && CanDeposit(input.amount))
    ensures r != balance && input.choice == WithdrawItem ==> r == balance - input.amount
    ensures r != balance && input.choice == DepositItem ==> r == balance + input.amount
    ensures 0.0 <= balance ==> 0.0 <= r
  {
    if input.choice == WithdrawItem then Withdrawn(balance, input.amount)
    else if input.choice == DepositItem then Deposited(balance, input.amount)
    else balance
  }

  /** The balance after the given rounds, played in order. Without a
      withdrawal among them it cannot fall, and without a deposit it cannot
      rise. */
  function Replay(balance: real, rounds: seq<MenuInput>): (r: real)
    ensures (forall k :: 0 <= k < |rounds| ==> rounds[k].choice != WithdrawItem) ==> balance <= r
    ensures (forall k :: 0 <= k < |rounds| ==> rounds[k].choice != DepositItem) ==> r <= balance
  {
    if |rounds| == 0 then balance
    else MenuStep(Replay(balance, rounds[..|rounds| - 1]), rounds[|rounds| - 1])
  }

  /** How many rounds the menu's do/while loop reads from `inputs`: it runs at
      least once, stops right after the first round that chooses `Exit`, and
      otherwise stops when the input runs out. It ends on `Exit` exactly when
      some round chooses it. */
  function MenuRounds(inputs: seq<MenuInput>): (n: nat)
    ensures n <= |inputs|
    ensures 0 < |inputs| ==> 0 < n
    ensures forall k :: 0 <= k < n - 1 ==> inputs[k].choice != Exit
    ensures n < |inputs| ==> 0 < n && inputs[n - 1].choice == Exit
    ensures (0 < n && inputs[n - 1].choice == Exit) <==>
            (exists k :: 0 <= k < |inputs| && inputs[k].choice == Exit)
  {
    if |inputs| == 0 then 0
    else if inputs[0].choice == Exit then 1
    else 1 + MenuRounds(inputs[1..])
  }

  /** Playing two stretches of rounds one after the other is playing their
      concatenation. */
  lemma {:induction false} ReplayAppend(balance: real, s: seq<MenuInput>, t: seq<MenuInput>)
    ensures Replay(balance, s + t) == Replay(Replay(balance, s), t)
  {
    if |t| > 0 {
      calc {
        Replay(balance, s + t);
        { assert (s + t)[..|s + t| - 1] == s + t[..|t| - 1]; }
        MenuStep(Replay(balance, s + t[..|t| - 1]), t[|t| - 1]);
        { ReplayAppend(balance, s, t[..|t| - 1]); }
        MenuStep(Replay(Replay(balance, s), t[..|t| - 1]), t[|t| - 1]);
      }
    } else {
      assert s + t == s;
    }
  }

  /** No sequence of menu rounds overdraws an account that starts out
      non-negative: the only way down is a guarded withdrawal. */
  lemma {:induction false} ReplayNonNegative(balance: real, rounds: seq<MenuInput>)
    requires 0.0 <= balance
    ensures 0.0 <= Replay(balance, rounds)
  {
    if |rounds| > 0 {
      ReplayNonNegative(balance, rounds[..|rounds| - 1]);
    }
  }

  /** Rounds that choose neither a withdrawal nor a deposit (checking the
      balance, leaving, or an unknown item) leave the balance as it was. */
  lemma {:induction false} ReplayWithoutMoneyItems(balance: real, rounds: seq<MenuInput>)
    requires forall k :: 0 <= k < |rounds| ==>
               rounds[k].choice != WithdrawItem && rounds[k].choice != DepositItem
    ensures Replay(balance, rounds) == balance
  {
    if |rounds| > 0 {
      ReplayWithoutMoneyItems(balance, rounds[..|rounds| - 1]);
    }
  }

  /** One pass of the console loop: the id typed at the prompt, then the
      menu rounds that follow it. */
  datatype Pass = Pass(id: int, inputs: seq<MenuInput>)

  /** The menu rounds that a sequence of passes plays on account `i`: for each
      pass that selects `i`, in order, the rounds its menu reads. */
  function RoundsFor(i: int, passes: seq<Pass>): seq<MenuInput>
  {
    if |passes| == 0 then []
    else
      var last := passes[|passes| - 1];
      RoundsFor(i, passes[..|passes| - 1]) +
      (if last.id == i then last.inputs[..MenuRounds(last.inputs)] else [])
  }

  class BankService {
    var accounts: array<Account?>

    /** Every slot holds an account, and no two slots share one, so a change to
        one account is invisible through every other slot. */
    ghost predicate Valid()
      reads this, accounts
    {
      (forall i :: 0 <= i < accounts.Length ==> accounts[i] != null) &&
      (forall i, j :: 0 <= i < j < accounts.Length ==> accounts[i] != accounts[j])
    }

    /** Ten fresh accounts; account `i` has id `i` and the initial balance.
        Each account reads the clock when it is created: `nows[i]` is the
        reading taken for account `i`. */
    constructor (nows: seq<int>)
      requires |nows| == AccountCount
      ensures Valid() && fresh(accounts) && accounts.Length == AccountCount
      ensures forall i :: 0 <= i < accounts.Length ==>
                fresh(accounts[i]) && accounts[i].id == i &&
                accounts[i].balance == InitialBalance &&
                accounts[i].annualInterestRate == 0.0 && accounts[i].dateCreated == nows[i]
    {
      var a := new Account?[AccountCount];
      for i := 0 to AccountCount
        invariant forall j :: 0 <= j < i ==>
                    a[j] != null && fresh(a[j]) && a[j].id == j &&
                    a[j].balance == InitialBalance &&
                    a[j].annualInterestRate == 0.0 && a[j].dateCreated == nows[j]
        invariant forall j, k :: 0 <= j < k < i ==> a[j] != a[k]
      {
        a[i] := new Account(i, InitialBalance, nows[i]);
      }
      accounts := a;
    }

    /** The id check of the console loop: an id is accepted exactly when it
        indexes an account. */
    method AcceptsId(id: int) returns (ok: bool)
      ensures ok <==> 0 <= id < accounts.Length
    {
      ok := !(id < 0 || id >= accounts.Length);
    }

    /** The menu for account `id`: each round checks the balance, withdraws,
        deposits, leaves, or is refused, until a round chooses `Exit` or the
        input runs out. Only `accounts[id]` changes, and only its balance. */
    method ShowMainMenu(id: int, inputs: seq<MenuInput>) returns (consumed: nat)
      requires Valid() && 0 <= id < accounts.Length
      modifies accounts[id]
      ensures Valid()
      ensures consumed == MenuRounds(inputs)
      ensures accounts[id].balance == Replay(old(accounts[id].balance), inputs[..consumed])
      ensures accounts[id].id == old(accounts[id].id)
      ensures accounts[id].annualInterestRate == old(accounts[id].annualInterestRate)
      ensures accounts[id].dateCreated == old(accounts[id].dateCreated)
      ensures forall i :: 0 <= i < accounts.Length && i != id ==>
                accounts[i].balance == old(accounts[i].balance)
    {
      var account: Account := accounts[id];
      consumed := 0;
      var choice := 0;
      while choice != Exit && consumed < |inputs|
        invariant consumed <= MenuRounds(inputs)
        invariant choice == Exit ==> consumed == MenuRounds(inputs)
        invariant choice != Exit ==> forall k :: 0 <= k < consumed ==> inputs[k].choice != Exit
        invariant account.balance == Replay(old(account.balance), inputs[..consumed])
        invariant account.id == old(account.id)
        invariant account.annualInterestRate == old(account.annualInterestRate)
        invariant account.dateCreated == old(account.dateCreated)
        decreases |inputs| - consumed
      {
        var input := inputs[consumed];
        choice := input.choice;
        if choice == CheckBalance {
          var shown := account.GetBalance();
        } else if choice == WithdrawItem {
          account.Withdraw(input.amount);
        } else if choice == DepositItem {
          account.Deposit(input.amount);
        }
        consumed := consumed + 1;
        assert inputs[..consumed][..consumed - 1] == inputs[..consumed - 1];
      }
    }

    /** One pass of the console loop: an out-of-range id is refused and touches
        no account; an accepted one runs the menu on that account alone. */
    method Serve(id: int, inputs: seq<MenuInput>) returns (accepted: bool, consumed: nat)
      requires Valid()
      modifies if 0 <= id < accounts.Length then {accounts[id]} else {}
      ensures Valid()
      ensures accepted <==> 0 <= id < accounts.Length
      ensures !accepted ==> consumed == 0
      ensures accepted ==> consumed == MenuRounds(inputs)
      ensures accepted ==>
                accounts[id].balance == Replay(old(accounts[id].balance), inputs[..consumed])
      ensures accepted ==>
                accounts[id].id == old(accounts[id].id) &&
                accounts[id].annualInterestRate == old(accounts[id].annualInterestRate) &&
                accounts[id].dateCreated == old(accounts[id].dateCreated)
      ensures forall i :: 0 <= i < accounts.Length && i != id ==>
                accounts[i].balance == old(accounts[i].balance)
    {
      accepted := AcceptsId(id);
      consumed := 0;
      if accepted {
        consumed := ShowMainMenu(id, inputs);
      }
    }

    /** A finite stretch of the console loop: the passes run one after the
        other, and each account ends with its balance replayed over exactly
        the menu rounds read in the passes that selected it, in order. No
        account's id, rate or creation time changes. */
    method Start(passes: seq<Pass>)
      requires Valid()
      modifies set i | 0 <= i < accounts.Length :: accounts[i]
      ensures Valid()
      ensures forall i :: 0 <= i < accounts.Length ==>
                accounts[i].balance == Replay(old(accounts[i].balance), RoundsFor(i, passes))
      ensures forall i :: 0 <= i < accounts.Length ==>
                accounts[i].id == old(accounts[i].id) &&
                accounts[i].annualInterestRate == old(accounts[i].annualInterestRate) &&
                accounts[i].dateCreated == old(accounts[i].dateCreated)
    {
      for p := 0 to |passes|
        invariant forall i :: 0 <= i < accounts.Length ==>
                    accounts[i].balance == Replay(old(accounts[i].balance), RoundsFor(i, passes[..p]))
        invariant forall i :: 0 <= i < accounts.Length ==>
                    accounts[i].id == old(accounts[i].id) &&
                    accounts[i].annualInterestRate == old(accounts[i].annualInterestRate) &&
                    accounts[i].dateCreated == old(accounts[i].dateCreated)
      {
        var accepted, consumed := Serve(passes[p].id, passes[p].inputs);
        assert passes[..p + 1][..p] == passes[..p];
        forall i | 0 <= i < accounts.Length
          ensures accounts[i].balance == Replay(old(accounts[i].balance), RoundsFor(i, passes[..p + 1]))
        {
          var earlier := RoundsFor(i, passes[..p]);
          if i == passes[p].id {
            assert RoundsFor(i, passes[..p + 1]) == earlier + passes[p].inputs[..consumed];
            ReplayAppend(old(accounts[i].balance), earlier, passes[p].inputs[..consumed]);
          } else {
            assert RoundsFor(i, passes[..p + 1]) == earlier + [];
            assert earlier + [] == earlier;
          }
        }
      }
      assert passes[..|passes|] == passes;
    }
  }
}
