/**
 The transaction monitor: each poll looks at every unfinished transaction once. With blocks
 that advance between polls and a receipt that stays where it is, every transaction is finished
 within a fixed number of polls, whatever mix of missing receipts and errors comes along.
 */
module TransactionMonitor {

  datatype Status = PENDING | CONFIRMING | CONFIRMED | FAILED

  datatype Transaction = Transaction(status: Status, retryCount: nat, confirmations: int)

  /** What one poll meets: no receipt, an exception before a status was assigned, or a receipt (block number 0 where it
      has none) together with the current block. `raised` is an exception after the status was assigned, by a listener
      or by the save; the handler counts it and saves again. `Unsaved` is a row that cannot be written, or that the
      poll did not reach because it ended at such a row. */
  datatype Poll =
    | NoReceipt(raised: bool)
    | Raised
    | Receipt(blockNumber: nat, success: bool, currentBlock: int, raised: bool)
    | Unsaved

  datatype Limits = Limits(maxRetries: int, maxConfirmations: int)

  const NEW_TRANSACTION := Transaction(PENDING, 0, 0)

  predicate Unfinished(tx: Transaction) {
    tx.status == PENDING || tx.status == CONFIRMING
  }

  /** One more retry is used up. */
  function Miss(limits: Limits, tx: Transaction): Transaction {
    tx.(retryCount := tx.retryCount + 1,
        status := if tx.retryCount + 1 > limits.maxRetries then FAILED else tx.status)
  }

  function Confirmations(blockNumber: nat, currentBlock: int): int {
    if blockNumber != 0 then currentBlock - blockNumber + 1 else 0
  }

  function Received(limits: Limits, tx: Transaction, confirmations: int, success: bool): Transaction {
    tx.(confirmations := confirmations,
        status := if !success then FAILED
                  else if confirmations >= limits.maxConfirmations then CONFIRMED
                  else CONFIRMING)
  }

  function Update(limits: Limits, tx: Transaction, poll: Poll): Transaction {
    match poll
    case NoReceipt(raised) => if raised then Miss(limits, Miss(limits, tx)) else Miss(limits, tx)
    case Raised => Miss(limits, tx)
    case Receipt(blockNumber, success, currentBlock, raised) =>
      var received := Received(limits, tx, Confirmations(blockNumber, currentBlock), success);
      if raised then Miss(limits, received) else received
    case Unsaved => tx
  }

  /** `checkPendingTransactions`, seen from one transaction: finished ones are not selected. */
  function Check(limits: Limits, tx: Transaction, poll: Poll): Transaction {
    if Unfinished(tx) then Update(limits, tx, poll) else tx
  }

  function CheckAll(limits: Limits, tx: Transaction, polls: seq<Poll>): Transaction
    decreases |polls|
  {
    if polls == [] then tx else CheckAll(limits, Check(limits, tx, polls[0]), polls[1..])
  }

  class TransactionMonitorService {
    const limits: Limits
    var transactions: map<string, Transaction>

    constructor (limits: Limits)
      ensures this.limits == limits && transactions == map[]
    {
      this.limits := limits;
      transactions := map[];
    }

    /** Tracking a hash again changes nothing. */
    method TrackTransaction(hash: string) returns (tx: Transaction)
      modifies this
      ensures hash in transactions && transactions[hash] == tx
      ensures transactions == if hash in old(transactions) then old(transactions)
        else old(transactions)[hash := NEW_TRANSACTION]
    {
      if hash in transactions {
        return transactions[hash];
      }
      tx := Transaction(PENDING, 0, 0);
      transactions := transactions[hash := tx];
    }

    /** The counts of the rows by status. */
    method GetTransactionStats() returns (total: nat, pending: nat, confirming: nat, confirmed: nat, failed: nat)
      ensures total == |transactions|
      ensures pending == |set h | h in transactions && transactions[h].status == PENDING|
      ensures confirming == |set h | h in transactions && transactions[h].status == CONFIRMING|
      ensures confirmed == |set h | h in transactions && transactions[h].status == CONFIRMED|
      ensures failed == |set h | h in transactions && transactions[h].status == FAILED|
      ensures total == pending + confirming + confirmed + failed
    {
      total := |transactions|;
      pending, confirming := |WithStatus(transactions, PENDING)|, |WithStatus(transactions, CONFIRMING)|;
      confirmed, failed := |WithStatus(transactions, CONFIRMED)|, |WithStatus(transactions, FAILED)|;
      StatsPartition(transactions);
    }

    /** Changes the fields of a fetched row and saves it; `saved` is whether the row could be written. */
    method UpdateTransactionStatus(hash: string, poll: Poll) returns (saved: bool)
      requires hash in transactions
      modifies this
      ensures transactions == old(transactions)[hash := Update(limits, old(transactions)[hash], poll)]
      ensures saved <==> !poll.Unsaved?
    {
      if poll.Unsaved? { return false; }
      var transaction := transactions[hash];
      var caught := false;
      match poll {
        case NoReceipt(raised) =>
          transaction := transaction.(retryCount := transaction.retryCount + 1);
          if transaction.retryCount > limits.maxRetries {
            transaction := transaction.(status := FAILED);
          }
          caught := raised;
        case Receipt(blockNumber, success, currentBlock, raised) =>
          var confirmations := if blockNumber != 0 then currentBlock - blockNumber + 1 else 0;
          transaction := transaction.(confirmations := confirmations);
          if success {
            if confirmations >= limits.maxConfirmations {
              transaction := transaction.(status := CONFIRMED);
            } else {
              transaction := transaction.(status := CONFIRMING);
            }
          } else {
            transaction := transaction.(status := FAILED);
          }
          caught := raised;
        case _ => caught := true;
      }
      if caught {
        transaction := transaction.(retryCount := transaction.retryCount + 1);
        if transaction.retryCount > limits.maxRetries {
          transaction := transaction.(status := FAILED);
        }
      }
      transactions := transactions[hash := transaction];
      return true;
    }

    /** One poll; `found` is what the repository lists as pending or confirming, in its own order. A row that cannot
        be written ends the poll; the rows from there on see nothing of it. */
    method CheckPendingTransactions(found: seq<string>, outcome: string -> Poll) returns (reached: nat)
      requires forall h :: h in found <==> h in transactions && Unfinished(transactions[h])
      requires forall i, j :: 0 <= i < j < |found| ==> found[i] != found[j]
      modifies this
      ensures reached <= |found|
      ensures forall i :: 0 <= i < reached ==> !outcome(found[i]).Unsaved?
      ensures reached < |found| ==> outcome(found[reached]).Unsaved?
      ensures transactions == map h | h in old(transactions) ::
        Check(limits, old(transactions)[h], if h in found[reached..] then Unsaved else outcome(h))
    {
      reached := 0;
      var saved := true;
      while reached < |found| && saved
        invariant 0 <= reached <= |found|
        invariant forall i :: 0 <= i < reached ==> !outcome(found[i]).Unsaved?
        invariant !saved ==> reached < |found| && outcome(found[reached]).Unsaved?
        invariant transactions.Keys == old(transactions).Keys
        invariant forall h :: h in old(transactions) ==>
          transactions[h]
          == if h in found[..reached] then Check(limits, old(transactions)[h], outcome(h)) else old(transactions)[h]
        decreases |found| - reached, saved
      {
        saved := UpdateTransactionStatus(found[reached], outcome(found[reached]));
        if saved { reached := reached + 1; }
      }
      forall h | h in old(transactions)
        ensures transactions[h]
             == Check(limits, old(transactions)[h], if h in found[reached..] then Unsaved else outcome(h))
      {
        assert found == found[..reached] + found[reached..];
      }
    }
  }

  // -------------------------------------------------------------- termination

  /** The receipts that appear are of one block, at least `depth` deep, and the chain grows between them. */
  ghost predicate Steady(polls: seq<Poll>, block: nat, depth: int) {
    && block > 0
    && (forall i :: 0 <= i < |polls| && polls[i].Receipt? ==>
          polls[i].blockNumber == block && polls[i].currentBlock - block + 1 >= depth)
    && (forall i, j :: 0 <= i < j < |polls| && polls[i].Receipt? && polls[j].Receipt? ==>
          polls[i].currentBlock < polls[j].currentBlock)
  }

  function AtLeast(low: int, x: int): int {
    if x < low then low else x
  }

  /** The polls that could write the row. */
  function Effective(polls: seq<Poll>): nat {
    if polls == [] then 0 else (if polls[0].Unsaved? then 0 else 1) + Effective(polls[1..])
  }

  /** How many more effective polls can leave the transaction unfinished. */
  function Room(limits: Limits, tx: Transaction, depth: int): int {
    AtLeast(0, limits.maxRetries - tx.retryCount) + AtLeast(0, limits.maxConfirmations - depth)
  }

  /** A finished transaction never changes again. */
  lemma {:induction false} FinishedStaysFinished(limits: Limits, tx: Transaction, polls: seq<Poll>)
    requires !Unfinished(tx)
    ensures CheckAll(limits, tx, polls) == tx
  {
    if polls != [] { FinishedStaysFinished(limits, tx, polls[1..]); }
  }

  lemma {:induction false} FinishesWithinRoom(limits: Limits, tx: Transaction, polls: seq<Poll>, block: nat, depth: int)
    requires Steady(polls, block, depth) && Unfinished(tx)
    requires Effective(polls) > Room(limits, tx, depth)
    ensures !Unfinished(CheckAll(limits, tx, polls))
    decreases |polls|
  {
    var tx' := Check(limits, tx, polls[0]);
    if !Unfinished(tx') {
      FinishedStaysFinished(limits, tx', polls[1..]);
    } else if polls[0].Receipt? {
      FinishesWithinRoom(limits, tx', polls[1..], block, tx'.confirmations + 1);
    } else {
      FinishesWithinRoom(limits, tx', polls[1..], block, depth);
    }
  }

  /** A new transaction is finished after maxRetries + maxConfirmations polls that could write it (counting a negative
      retry limit as none and a confirmation limit below one as one), however many could not. */
  lemma MonitorTerminates(limits: Limits, polls: seq<Poll>, block: nat)
    requires Steady(polls, block, 1)
    requires Effective(polls) >= AtLeast(0, limits.maxRetries) + AtLeast(1, limits.maxConfirmations)
    ensures var tx := CheckAll(limits, NEW_TRANSACTION, polls); tx.status == CONFIRMED || tx.status == FAILED
  {
    FinishesWithinRoom(limits, NEW_TRANSACTION, polls, block, 1);
  }

  // ------------------------------------------------------- the bound is exact

  function Misses(n: nat): seq<Poll> {
    if n == 0 then [] else [NoReceipt(false)] + Misses(n - 1)
  }

  /** Receipts of `block` seen while it is depth, ..., depth + n - 1 blocks deep. */
  function Receipts(block: nat, depth: int, n: nat): seq<Poll>
    decreases n
  {
    if n == 0 then [] else [Receipt(block, true, block + depth - 1, false)] + Receipts(block, depth + 1, n - 1)
  }

  lemma {:induction false} ReceiptsKeepWaiting(limits: Limits, tx: Transaction, block: nat, depth: int, n: nat)
    requires block > 0 && Unfinished(tx) && (n > 0 ==> depth + n <= limits.maxConfirmations)
    ensures Unfinished(CheckAll(limits, tx, Receipts(block, depth, n)))
    ensures Steady(Receipts(block, depth, n), block, depth) && Effective(Receipts(block, depth, n)) == n
    decreases n
  {
    if n > 0 {
      var rest := Receipts(block, depth + 1, n - 1);
      ReceiptsKeepWaiting(limits, Check(limits, tx, Receipt(block, true, block + depth - 1, false)), block, depth + 1,
                          n - 1);
      assert Receipts(block, depth, n)[1..] == rest;
    }
  }

  lemma MissKeepsSteady(polls: seq<Poll>, block: nat, depth: int)
    requires Steady(polls, block, depth)
    ensures Steady([NoReceipt(false)] + polls, block, depth)
  {
    var all := [NoReceipt(false)] + polls;
    forall i | 0 < i < |all| ensures all[i] == polls[i - 1] {}
  }

  lemma {:induction false} MissesAreSteady(n: nat, rest: seq<Poll>, block: nat)
    requires Steady(rest, block, 1)
    ensures Steady(Misses(n) + rest, block, 1) && Effective(Misses(n) + rest) == n + Effective(rest)
  {
    if n == 0 {
      assert Misses(n) + rest == rest;
    } else {
      MissesAreSteady(n - 1, rest, block);
      MissKeepsSteady(Misses(n - 1) + rest, block, 1);
      assert Misses(n) + rest == [NoReceipt(false)] + (Misses(n - 1) + rest);
      assert ([NoReceipt(false)] + (Misses(n - 1) + rest))[1..] == Misses(n - 1) + rest;
    }
  }

  lemma {:induction false} MissesKeepWaiting(limits: Limits, tx: Transaction, n: nat, rest: seq<Poll>)
    requires Unfinished(tx) && (n > 0 ==> tx.retryCount + n <= limits.maxRetries)
    ensures CheckAll(limits, tx, Misses(n) + rest) == CheckAll(limits, tx.(retryCount := tx.retryCount + n), rest)
    decreases n
  {
    if n == 0 {
      assert Misses(n) + rest == rest;
    } else {
      var tail := Misses(n - 1) + rest;
      MissesKeepWaiting(limits, tx.(retryCount := tx.retryCount + 1), n - 1, rest);
      assert Misses(n) + rest == [NoReceipt(false)] + tail;
      assert (Misses(n) + rest)[1..] == tail;
    }
  }

  /** One poll less is not enough: for all limits there are steady polls that leave a transaction unfinished. */
  lemma BoundIsExact(limits: Limits, block: nat)
    requires block > 0
    ensures exists polls :: Effective(polls) == AtLeast(0, limits.maxRetries) + AtLeast(1, limits.maxConfirmations) - 1
                         && Steady(polls, block, 1) && Unfinished(CheckAll(limits, NEW_TRANSACTION, polls))
  {
    var misses, receipts := AtLeast(0, limits.maxRetries), AtLeast(1, limits.maxConfirmations) - 1;
    var rest := Receipts(block, 1, receipts);
    ReceiptsKeepWaiting(limits, NEW_TRANSACTION.(retryCount := misses), block, 1, receipts);
    MissesAreSteady(misses, rest, block);
    MissesKeepWaiting(limits, NEW_TRANSACTION, misses, rest);
    var polls := Misses(misses) + rest;
    assert Effective(polls) == misses + receipts;
  }

  /** Receipts without a block number keep the monitor waiting, for any number of polls, exactly if any confirmation
      is asked for at all. */
  lemma {:induction false} NoBlockNumberNeverFinishes(limits: Limits, tx: Transaction, polls: seq<Poll>)
    requires Unfinished(tx) && polls != []
    requires forall i :: 0 <= i < |polls| ==>
      polls[i].Receipt? && polls[i].blockNumber == 0 && polls[i].success && !polls[i].raised
    ensures Unfinished(CheckAll(limits, tx, polls)) <==> limits.maxConfirmations > 0
    decreases |polls|
  {
    var tx' := Check(limits, tx, polls[0]);
    if !Unfinished(tx') {
      FinishedStaysFinished(limits, tx', polls[1..]);
    } else if |polls| > 1 {
      NoBlockNumberNeverFinishes(limits, tx', polls[1..]);
    }
  }

  // ------------------------------------------------------------ what states mean

  /** Confirmed means enough confirmations, confirming means too few, and an unfinished transaction
      has not used up its retries. */
  predicate Justified(limits: Limits, tx: Transaction) {
    && (tx.status == CONFIRMED ==> tx.confirmations >= limits.maxConfirmations)
    && (tx.status == CONFIRMING ==> tx.confirmations < limits.maxConfirmations)
    && (Unfinished(tx) ==> tx.retryCount <= AtLeast(0, limits.maxRetries))
  }

  lemma {:induction false} StatusIsJustified(limits: Limits, tx: Transaction, polls: seq<Poll>)
    requires Justified(limits, tx)
    ensures Justified(limits, CheckAll(limits, tx, polls))
    decreases |polls|
  {
    if polls != [] { StatusIsJustified(limits, Check(limits, tx, polls[0]), polls[1..]); }
  }

  /** What one poll decides about an unfinished transaction. A receipt without success fails it, whatever its state and
      depth; one with success confirms it exactly at the depth that is asked for; a missing receipt and every exception
      use up a retry, and the first one beyond the limit fails it. */
  lemma PollDecides(limits: Limits, tx: Transaction, poll: Poll)
    requires Unfinished(tx)
    ensures var after := Check(limits, tx, poll);
      match poll
      case Unsaved => after == tx
      case Raised =>
        after.retryCount == tx.retryCount + 1 && after.confirmations == tx.confirmations
        && after.status == if tx.retryCount >= limits.maxRetries then FAILED else tx.status
      case NoReceipt(raised) =>
        after.retryCount == tx.retryCount + (if raised then 2 else 1) && after.confirmations == tx.confirmations
        && after.status == if after.retryCount > limits.maxRetries then FAILED else tx.status
      case Receipt(block, success, head, raised) =>
        && after.confirmations == (if block == 0 then 0 else head - block + 1)
        && after.retryCount == tx.retryCount + (if raised then 1 else 0)
        && after.status == if !success || (raised && tx.retryCount >= limits.maxRetries) then FAILED
                           else if after.confirmations >= limits.maxConfirmations then CONFIRMED
                           else CONFIRMING
  {
  }

  /** A receipt of a transaction that succeeded, as deep as is asked for. */
  predicate Confirming(limits: Limits, poll: Poll) {
    poll.Receipt? && poll.success
    && (if poll.blockNumber == 0 then 0 else poll.currentBlock - poll.blockNumber + 1) >= limits.maxConfirmations
  }

  predicate Reverting(poll: Poll) {
    poll.Receipt? && !poll.success
  }

  /** How many retries the poll uses up. */
  function Used(poll: Poll): nat {
    match poll
    case NoReceipt(raised) => if raised then 2 else 1
    case Raised => 1
    case Receipt(_, _, _, raised) => if raised then 1 else 0
    case Unsaved => 0
  }

  function AllUsed(polls: seq<Poll>): nat {
    if polls == [] then 0 else Used(polls[0]) + AllUsed(polls[1..])
  }

  /** Why a transaction ended as it did, on every run of polls: a CONFIRMED one met a successful receipt of the depth
      asked for, and a FAILED one an unsuccessful receipt, or more missing receipts and exceptions than it had
      retries. */
  lemma {:induction false} EndingIsEarned(limits: Limits, tx: Transaction, polls: seq<Poll>)
    requires Unfinished(tx)
    ensures var after := CheckAll(limits, tx, polls);
      && (after.status == CONFIRMED ==> exists i :: 0 <= i < |polls| && Confirming(limits, polls[i]))
      && (after.status == FAILED ==>
            (exists i :: 0 <= i < |polls| && Reverting(polls[i])) || tx.retryCount + AllUsed(polls) > limits.maxRetries)
    decreases |polls|
  {
    if polls != [] {
      var next := Check(limits, tx, polls[0]);
      PollDecides(limits, tx, polls[0]);
      if Unfinished(next) {
        EndingIsEarned(limits, next, polls[1..]);
        if i :| 0 <= i < |polls[1..]| && Confirming(limits, polls[1..][i]) { assert Confirming(limits, polls[i + 1]); }
        if i :| 0 <= i < |polls[1..]| && Reverting(polls[1..][i]) { assert Reverting(polls[i + 1]); }
      } else {
        FinishedStaysFinished(limits, next, polls[1..]);
        assert next.status == CONFIRMED ==> Confirming(limits, polls[0]);
        assert next.status == FAILED ==> Reverting(polls[0]) || tx.retryCount + Used(polls[0]) > limits.maxRetries;
      }
    }
  }

  /** A new transaction whose first receipt is unsuccessful ends FAILED, and stays so. */
  lemma RevertedFails(limits: Limits, before: seq<Poll>, receipt: Poll, rest: seq<Poll>)
    requires Reverting(receipt) && Unfinished(CheckAll(limits, NEW_TRANSACTION, before))
    ensures CheckAll(limits, NEW_TRANSACTION, before + [receipt] + rest).status == FAILED
  {
    var tx := CheckAll(limits, NEW_TRANSACTION, before);
    CheckTwice(limits, NEW_TRANSACTION, before, [receipt] + rest);
    assert before + [receipt] + rest == before + ([receipt] + rest);
    assert ([receipt] + rest)[1..] == rest;
    FinishedStaysFinished(limits, Check(limits, tx, receipt), rest);
  }

  lemma {:induction false} CheckTwice(limits: Limits, tx: Transaction, first: seq<Poll>, second: seq<Poll>)
    ensures CheckAll(limits, tx, first + second) == CheckAll(limits, CheckAll(limits, tx, first), second)
    decreases |first|
  {
    if first == [] {
      assert first + second == second;
    } else {
      assert (first + second)[1..] == first[1..] + second;
      CheckTwice(limits, Check(limits, tx, first[0]), first[1..], second);
    }
  }

  // --------------------------------------------------------- direct updates

  /** A direct status update leaves a final status as it is. */
  predicate KeepsFinal(limits: Limits, tx: Transaction, poll: Poll) {
    match poll
    case NoReceipt(raised) => tx.status == FAILED || tx.retryCount + (if raised then 2 else 1) <= limits.maxRetries
    case Raised => tx.status == FAILED || tx.retryCount + 1 <= limits.maxRetries
    case Receipt(blockNumber, success, currentBlock, raised) =>
      var giveUp := raised && tx.retryCount + 1 > limits.maxRetries;
      if tx.status == FAILED then !success || giveUp
      else success && Confirmations(blockNumber, currentBlock) >= limits.maxConfirmations && !giveUp
    case Unsaved => true
  }

  /** Only the selection of unfinished transactions protects a final status. An update that does not go through it
      keeps the status exactly if FAILED meets no good receipt, and CONFIRMED meets a good and deep one or has
      retries left. */
  lemma DirectUpdateKeepsFinalIff(limits: Limits, tx: Transaction, poll: Poll)
    requires !Unfinished(tx)
    ensures Update(limits, tx, poll).status == tx.status <==> KeepsFinal(limits, tx, poll)
    ensures Check(limits, tx, poll) == tx
  {
  }

  /** A transaction that was given up is CONFIRMED when its receipt turns up after all, for all limits. */
  lemma DirectUpdateRevives(limits: Limits, block: nat, currentBlock: int)
    requires block > 0 && currentBlock - block + 1 >= limits.maxConfirmations
    ensures var tx := CheckAll(limits, NEW_TRANSACTION, Misses(AtLeast(0, limits.maxRetries) + 1));
      tx.status == FAILED && Update(limits, tx, Receipt(block, true, currentBlock, false)).status == CONFIRMED
  {
    var n := AtLeast(0, limits.maxRetries);
    var waiting := NEW_TRANSACTION.(retryCount := n);
    MissesInTurn(n);
    MissesKeepWaiting(limits, NEW_TRANSACTION, n, [NoReceipt(false)]);
    assert CheckAll(limits, waiting, [NoReceipt(false)])
        == CheckAll(limits, Check(limits, waiting, NoReceipt(false)), [NoReceipt(false)][1..]);
  }

  lemma {:induction false} MissesInTurn(n: nat)
    ensures Misses(n + 1) == Misses(n) + [NoReceipt(false)]
  {
    if n > 0 { MissesInTurn(n - 1); }
  }

  /** A CONFIRMED transaction falls back to CONFIRMING on a receipt that is one block too shallow, and to FAILED on a
      missing receipt once its retries are used up, for all limits. The first of these takes a chain head below one
      that was already seen, as after a reorganisation, and one below the receipt's block itself if at most one
      confirmation is asked for. */
  lemma DirectUpdateDemotes(limits: Limits, block: nat, currentBlock: int)
    requires block > 0 && currentBlock - block + 1 >= limits.maxConfirmations
    ensures var deep := Receipt(block, true, currentBlock, false);
      var tx := CheckAll(limits, NEW_TRANSACTION, Misses(AtLeast(0, limits.maxRetries)) + [deep]);
      && tx.status == CONFIRMED
      && Update(limits, tx, Receipt(block, true, block + limits.maxConfirmations - 2, false)).status == CONFIRMING
      && Update(limits, tx, NoReceipt(false)).status == FAILED
  {
    var n, deep := AtLeast(0, limits.maxRetries), Receipt(block, true, currentBlock, false);
    var waiting := NEW_TRANSACTION.(retryCount := n);
    MissesKeepWaiting(limits, NEW_TRANSACTION, n, [deep]);
    assert CheckAll(limits, waiting, [deep]) == CheckAll(limits, Check(limits, waiting, deep), [deep][1..]);
  }

  /** All receipts are of one block, seen from chain heads no higher than this one. */
  predicate SeenBelow(polls: seq<Poll>, block: nat, head: int) {
    forall i :: 0 <= i < |polls| && polls[i].Receipt? ==> polls[i].blockNumber == block && polls[i].currentBlock <= head
  }

  lemma {:induction false} ConfirmedBelowHead(limits: Limits, tx: Transaction, polls: seq<Poll>, block: nat, head: int)
    requires block > 0 && SeenBelow(polls, block, head)
    requires tx.status == CONFIRMED ==> tx.confirmations <= Confirmations(block, head)
    ensures var after := CheckAll(limits, tx, polls);
      after.status == CONFIRMED ==> after.confirmations <= Confirmations(block, head)
    decreases |polls|
  {
    if polls != [] { ConfirmedBelowHead(limits, Check(limits, tx, polls[0]), polls[1..], block, head); }
  }

  /** With a chain head that never goes back the fall to CONFIRMING cannot happen: whatever polls confirmed a new
      transaction, its receipt seen from a head at least as high leaves it CONFIRMED. The head decides, exactly. */
  lemma OnlyLowerHeadDemotes(limits: Limits, polls: seq<Poll>, block: nat, head: int, later: int)
    requires block > 0 && SeenBelow(polls, block, head)
    requires CheckAll(limits, NEW_TRANSACTION, polls).status == CONFIRMED
    ensures var tx := CheckAll(limits, NEW_TRANSACTION, polls);
      var after := Update(limits, tx, Receipt(block, true, later, false));
      && (after.status == CONFIRMED <==> Confirmations(block, later) >= limits.maxConfirmations)
      && (later >= head ==> after.status == CONFIRMED)
      && (after.status == CONFIRMING ==> later < head)
  {
    ConfirmedBelowHead(limits, NEW_TRANSACTION, polls, block, head);
    StatusIsJustified(limits, NEW_TRANSACTION, polls);
  }

  function WithStatus(txs: map<string, Transaction>, status: Status): set<string> {
    set h | h in txs && txs[h].status == status
  }

  /** The four counts of `getTransactionStats` add up to the total, and each counts its own status. */
  lemma StatsPartition(txs: map<string, Transaction>)
    ensures WithStatus(txs, PENDING) == set h | h in txs && txs[h].status == PENDING
    ensures WithStatus(txs, CONFIRMING) == set h | h in txs && txs[h].status == CONFIRMING
    ensures WithStatus(txs, CONFIRMED) == set h | h in txs && txs[h].status == CONFIRMED
    ensures WithStatus(txs, FAILED) == set h | h in txs && txs[h].status == FAILED
    ensures |txs| == |WithStatus(txs, PENDING)| + |WithStatus(txs, CONFIRMING)|
                   + |WithStatus(txs, CONFIRMED)| + |WithStatus(txs, FAILED)|
  {
    var p, c := WithStatus(txs, PENDING), WithStatus(txs, CONFIRMING);
    var d, f := WithStatus(txs, CONFIRMED), WithStatus(txs, FAILED);
    assert txs.Keys == (p + c) + (d + f);
    assert (p + c) * (d + f) == {} && p * c == {} && d * f == {};
  }
}
