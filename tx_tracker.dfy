/** The transaction tracker (src/shared/context/TransactionTrackerContext.tsx):
 *  submitted transactions start pending and are polled until the wallet
 *  reports them confirmed or failed, or until they have been polled more
 *  than `MaxPollAttempts` times, which fails them. */
module TxTracker {
  import opened Text

  datatype TxStatus = Pending | Confirmed | Failed

  /** A tracked transaction; `id` and `timestamp` are the random key and the
      clock reading taken when it was added. */
  datatype TrackedTx = TrackedTx(
    id: string, txId: string, aleoId: Option<string>, caption: string, status: TxStatus, timestamp: int)

  /** 72 polls of 5 seconds, about six minutes. */
  const MaxPollAttempts := 72

  /** `confirmTx`'s update: the entries of `txId` become confirmed, taking the
      on-chain id when a non-empty one is given; the others are kept. */
  function MarkConfirmed(ts: seq<TrackedTx>, txId: string, aleoId: Option<string>): (r: seq<TrackedTx>)
    ensures |r| == |ts|
    ensures forall i :: 0 <= i < |r| && ts[i].txId != txId ==> r[i] == ts[i]
    ensures forall i :: 0 <= i < |r| && ts[i].txId == txId ==>
              r[i] == ts[i].(status := Confirmed,
                             aleoId := if aleoId.Some? && aleoId.value != "" then aleoId else ts[i].aleoId)
  {
    seq(|ts|, i requires 0 <= i < |ts| =>
      if ts[i].txId != txId then ts[i]
      else if aleoId.Some? && aleoId.value != "" then ts[i].(status := Confirmed, aleoId := aleoId)
      else ts[i].(status := Confirmed))
  }

  /** `failTx`'s update: the entries of `txId` become failed, the others are kept. */
  function MarkFailed(ts: seq<TrackedTx>, txId: string): (r: seq<TrackedTx>)
    ensures |r| == |ts|
    ensures forall i :: 0 <= i < |r| ==> r[i] == (if ts[i].txId == txId then ts[i].(status := Failed) else ts[i])
  {
    seq(|ts|, i requires 0 <= i < |ts| => if ts[i].txId == txId then ts[i].(status := Failed) else ts[i])
  }

  /** The pending entries, in order (`clearCompleted` keeps these). */
  function Pendings(ts: seq<TrackedTx>): (r: seq<TrackedTx>)
    ensures |r| <= |ts|
    ensures forall i :: 0 <= i < |r| ==> r[i].status == Pending && r[i] in ts
    ensures forall t :: t in ts && t.status == Pending ==> t in r
  {
    if ts == [] then []
    else if ts[0].status == Pending then [ts[0]] + Pendings(ts[1..])
    else Pendings(ts[1..])
  }

  /** Clearing keeps the order, and clearing twice is clearing once. */
  lemma {:induction false} PendingsOrderAndIdempotent(ts: seq<TrackedTx>)
    ensures IsSubsequence(Pendings(ts), ts)
    ensures Pendings(Pendings(ts)) == Pendings(ts)
    decreases |ts|
  {
    if ts != [] {
      PendingsOrderAndIdempotent(ts[1..]);
      var r := Pendings(ts);
      if ts[0].status == Pending {
        assert r[1..] == Pendings(ts[1..]);
        assert Pendings(r) == [r[0]] + Pendings(r[1..]);
      } else if r != [] {
        SubsequenceSkip(r, ts);
      }
    }
  }

  /** What a wallet status text means. */
  datatype Verdict = Confirm | Fail | NoChange

  predicate ConfirmWord(s: string)
  {
    Contains(s, "Finalized") || Contains(s, "Confirmed") || Contains(s, "Accepted") || Contains(s, "Completed")
  }

  predicate FailWord(s: string)
  {
    Contains(s, "Failed") || Contains(s, "Rejected")
  }

  /** The status classifier: a confirming word wins over a failing one. */
  function Classify(s: string): (r: Verdict)
    ensures r == Confirm <==> ConfirmWord(s)
    ensures r == Fail <==> !ConfirmWord(s) && FailWord(s)
    ensures r == NoChange <==> !ConfirmWord(s) && !FailWord(s)
  {
    if ConfirmWord(s) then Confirm
    else if FailWord(s) then Fail
    else NoChange
  }

  /** The count stored for a transaction (`?? 0`). */
  function Attempts(attempts: map<string, int>, txId: string): int
  {
    if txId in attempts then attempts[txId] else 0
  }

  /** One transaction's poll: its attempt count goes up by one; past the
      limit it fails whatever the wallet says; otherwise the wallet's
      answer, if there is one, is classified. */
  function PollVerdict(attempts: map<string, int>, txId: string, answer: Option<string>): (r: Verdict)
    ensures Attempts(attempts, txId) >= MaxPollAttempts ==> r == Fail
    ensures Attempts(attempts, txId) < MaxPollAttempts && answer.None? ==> r == NoChange
    ensures Attempts(attempts, txId) < MaxPollAttempts && answer.Some? ==> r == Classify(answer.value)
  {
    if Attempts(attempts, txId) + 1 > MaxPollAttempts then Fail
    else if answer.None? then NoChange
    else Classify(answer.value)
  }

  /** The wallet's answer for a transaction, if it gave one. */
  function Answer(answers: map<string, string>, txId: string): Option<string>
  {
    if txId in answers then Some(answers[txId]) else None
  }

  /** No counter exceeds the limit: a transaction polled past it is failed
      and its counter deleted. */
  predicate BoundedAttempts(attempts: map<string, int>)
  {
    forall txId :: txId in attempts ==> 0 <= attempts[txId] <= MaxPollAttempts
  }

  /** The tracker's two pieces of state, as one value. */
  datatype TrackerState = TrackerState(transactions: seq<TrackedTx>, attempts: map<string, int>)

  /** The state after polling one transaction. */
  function AfterPoll(s: TrackerState, txId: string, answer: Option<string>): (r: TrackerState)
    ensures BoundedAttempts(s.attempts) ==> BoundedAttempts(r.attempts)
    ensures |r.transactions| == |s.transactions|
  {
    match PollVerdict(s.attempts, txId, answer)
    case Fail => TrackerState(MarkFailed(s.transactions, txId), s.attempts - {txId})
    case Confirm => TrackerState(MarkConfirmed(s.transactions, txId, None), s.attempts - {txId})
    case NoChange => TrackerState(s.transactions, s.attempts[txId := Attempts(s.attempts, txId) + 1])
  }

  /** The state after polling the given transactions one after the other. */
  function AfterPolls(s: TrackerState, txIds: seq<string>, answers: map<string, string>): TrackerState
    decreases |txIds|
  {
    if txIds == [] then s
    else
      var last := txIds[|txIds| - 1];
      AfterPoll(AfterPolls(s, txIds[..|txIds| - 1], answers), last, Answer(answers, last))
  }

  /** Polling never adds or removes an entry and keeps every counter within
      the limit. */
  lemma {:induction false} AfterPollsBounded(s: TrackerState, txIds: seq<string>, answers: map<string, string>)
    requires BoundedAttempts(s.attempts)
    ensures BoundedAttempts(AfterPolls(s, txIds, answers).attempts)
    ensures |AfterPolls(s, txIds, answers).transactions| == |s.transactions|
    decreases |txIds|
  {
    if txIds != [] {
      AfterPollsBounded(s, txIds[..|txIds| - 1], answers);
    }
  }

  /** Entries of transactions that are not polled are left as they are. */
  lemma {:induction false} AfterPollsOthersUnchanged(s: TrackerState, txIds: seq<string>, answers: map<string, string>, i: int)
    requires 0 <= i < |s.transactions| && s.transactions[i].txId !in txIds
    ensures |AfterPolls(s, txIds, answers).transactions| == |s.transactions|
    ensures AfterPolls(s, txIds, answers).transactions[i] == s.transactions[i]
    decreases |txIds|
  {
    if txIds != [] {
      var init := txIds[..|txIds| - 1];
      assert forall x :: x in init ==> x in txIds;
      AfterPollsOthersUnchanged(s, init, answers, i);
    }
  }

  /** `n` polls of the same transaction. */
  function Repeat(txId: string, n: nat): (r: seq<string>)
    ensures |r| == n && forall i :: 0 <= i < n ==> r[i] == txId
  {
    seq(n, _ => txId)
  }

  /** While the wallet never answers, each poll only counts. */
  lemma {:induction false} UnansweredPollsCount(s: TrackerState, txId: string, answers: map<string, string>, n: nat)
    requires txId !in answers
    requires 0 <= Attempts(s.attempts, txId) && Attempts(s.attempts, txId) + n <= MaxPollAttempts
    ensures AfterPolls(s, Repeat(txId, n), answers).transactions == s.transactions
    ensures Attempts(AfterPolls(s, Repeat(txId, n), answers).attempts, txId) == Attempts(s.attempts, txId) + n
  {
    if n > 0 {
      assert Repeat(txId, n)[..n - 1] == Repeat(txId, n - 1);
      UnansweredPollsCount(s, txId, answers, n - 1);
    }
  }

  /** A transaction the wallet never reports on is failed by the poll that
      takes its counter past the limit, and not before. */
  lemma NeverAnsweredFails(s: TrackerState, txId: string, answers: map<string, string>)
    requires txId !in answers
    requires 0 <= Attempts(s.attempts, txId) <= MaxPollAttempts
    ensures var n := MaxPollAttempts - Attempts(s.attempts, txId);
      && AfterPolls(s, Repeat(txId, n), answers).transactions == s.transactions
      && AfterPolls(s, Repeat(txId, n + 1), answers).transactions == MarkFailed(s.transactions, txId)
  {
    var n := MaxPollAttempts - Attempts(s.attempts, txId);
    UnansweredPollsCount(s, txId, answers, n);
    assert Repeat(txId, n + 1)[..n] == Repeat(txId, n);
  }

  /** The transaction ids of the entries, in order. */
  function TxIds(ts: seq<TrackedTx>): (r: seq<string>)
    ensures |r| == |ts| && forall i :: 0 <= i < |ts| ==> r[i] == ts[i].txId
  {
    seq(|ts|, i requires 0 <= i < |ts| => ts[i].txId)
  }

  /** The tracker's state; `attempts` is the per-transaction poll counter. */
  class TransactionTracker {
    var transactions: seq<TrackedTx>
    var attempts: map<string, int>

    predicate Valid()
      reads this
    {
      BoundedAttempts(attempts)
    }

    constructor()
      ensures Valid() && transactions == [] && attempts == map[]
    {
      transactions := [];
      attempts := map[];
    }

    /** `addTransaction`: one pending entry at the end, its counter at 0. */
    method AddTransaction(txId: string, caption: string, key: string, now: int)
      requires Valid()
      modifies this
      ensures Valid()
      ensures transactions == old(transactions) + [TrackedTx(key, txId, None, caption, Pending, now)]
      ensures attempts == old(attempts)[txId := 0]
    {
      attempts := attempts[txId := 0];
      transactions := transactions + [TrackedTx(key, txId, None, caption, Pending, now)];
    }

    method ConfirmTx(txId: string, aleoId: Option<string>)
      requires Valid()
      modifies this
      ensures Valid()
      ensures transactions == MarkConfirmed(old(transactions), txId, aleoId)
      ensures attempts == old(attempts) - {txId}
    {
      transactions := MarkConfirmed(transactions, txId, aleoId);
      attempts := attempts - {txId};
    }

    method FailTx(txId: string)
      requires Valid()
      modifies this
      ensures Valid()
      ensures transactions == MarkFailed(old(transactions), txId)
      ensures attempts == old(attempts) - {txId}
    {
      transactions := MarkFailed(transactions, txId);
      attempts := attempts - {txId};
    }

    /** `clearCompleted`: only the pending entries stay. */
    method ClearCompleted()
      modifies this
      ensures transactions == Pendings(old(transactions)) && attempts == old(attempts)
    {
      transactions := Pendings(transactions);
    }

    /** One transaction's step of `pollPending`; `answer` is the wallet's
        status text, None when the wallet offers no status call or the call
        fails. A confirmation found by polling carries no on-chain id. */
    method PollOne(txId: string, answer: Option<string>)
      requires Valid()
      modifies this
      ensures Valid()
      ensures TrackerState(transactions, attempts) == AfterPoll(old(TrackerState(transactions, attempts)), txId, answer)
    {
      var n := Attempts(attempts, txId) + 1;
      if n > MaxPollAttempts {
        // The count past the limit is stored and deleted again at once.
        FailTx(txId);
        return;
      }
      attempts := attempts[txId := n];
      if answer.None? {
        return;
      }
      var s := answer.value;
      if ConfirmWord(s) {
        ConfirmTx(txId, None);
      } else if FailWord(s) {
        FailTx(txId);
      }
    }

    /** `pollPending`: every entry pending at the start is polled once, in
        order, with the wallet's answer for its transaction. */
    method PollPending(answers: map<string, string>)
      requires Valid()
      modifies this
      ensures Valid()
      ensures TrackerState(transactions, attempts)
              == AfterPolls(old(TrackerState(transactions, attempts)), TxIds(Pendings(old(transactions))), answers)
    {
      ghost var s0 := TrackerState(transactions, attempts);
      var pending := TxIds(Pendings(transactions));
      var i := 0;
      while i < |pending|
        invariant 0 <= i <= |pending|
        invariant Valid()
        invariant TrackerState(transactions, attempts) == AfterPolls(s0, pending[..i], answers)
      {
        assert pending[..i + 1][..i] == pending[..i];
        PollOne(pending[i], Answer(answers, pending[i]));
        i := i + 1;
      }
      assert pending[..i] == pending;
    }
  }
}
