/** Replayed transaction ids: repeating a recorded partial payment changes nothing, whatever happens in between. */
module Replays {
  import opened Base
  import opened Token
  import opened BidBook
  import opened SettlementSplit
  import opened Protocol
  import opened Coherence
  import opened Local
  import opened Frames
  import opened Simulation
  import opened Runs

  /** While an invoice is Funded something is still owed on it. */
  predicate OwedWhileFunded(s: State, id: InvoiceId) {
    id in s.invoices && s.invoices[id].status == Funded ==> s.invoices[id].totalPaid < s.invoices[id].amount
  }

  lemma StillOwing(s: State, id: InvoiceId)
    requires Inv(s)
    ensures OwedWhileFunded(s, id)
  {
    hide Structure, EscrowOf, InvestmentOf, AcceptedOn, PaymentsOf, NoncesOf, MovesOf;
    if id in s.invoices && s.invoices[id].status == Funded {
      assert Coherent(id, SliceOf(s, id));
      FundedFacts(id, SliceOf(s, id));
    }
  }

  lemma ReplayedPayment(s: State, id: InvoiceId, amount: int, transactionId: string)
    requires OwedWhileFunded(s, id) && transactionId != "" && (id, transactionId) in s.nonces
    ensures var r := ProcessPartialPayment(s, id, amount, transactionId); r == Ok(s) || r.Err?
  {
    hide Finalize, RecordedState, ProgressPercent;
  }

  lemma PayPartIs(s: State, id: InvoiceId, amount: i128, transactionId: string)
    ensures Attempt(s, PayPart(id, amount, transactionId)) == ProcessPartialPayment(s, id, amount, transactionId)
  {
    hide ProcessPartialPayment;
  }

  lemma ReplayKeepsState(s: State, id: InvoiceId, amount: i128, transactionId: string)
    requires OwedWhileFunded(s, id) && transactionId != "" && (id, transactionId) in s.nonces
    ensures Apply(s, PayPart(id, amount, transactionId)) == s
  {
    hide OwedWhileFunded, Attempt, ProcessPartialPayment;
    ReplayedPayment(s, id, amount, transactionId);
    PayPartIs(s, id, amount, transactionId);
  }

  /** A partial payment whose transaction id is already recorded leaves the state as it is. */
  lemma ReplayIsNoOp(g: Genesis, actions: seq<Action>, id: InvoiceId, amount: i128, transactionId: string)
    requires Legal(actions) && transactionId != "" && (id, transactionId) in Reached(g, actions).nonces
    ensures Apply(Reached(g, actions), PayPart(id, amount, transactionId)) == Reached(g, actions)
  {
    hide Reached, Apply, Inv, OwedWhileFunded;
    ReachedInv(g, actions);
    StillOwing(Reached(g, actions), id);
    ReplayKeepsState(Reached(g, actions), id, amount, transactionId);
  }

  /** A partial payment that was accepted under a non-empty transaction id has recorded it. */
  lemma AcceptedIsRecorded(s: State, id: InvoiceId, amount: i128, transactionId: string)
    requires transactionId != "" && ProcessPartialPayment(s, id, amount, transactionId).Ok?
    ensures id in s.invoices
    ensures (id, transactionId) in Apply(s, PayPart(id, amount, transactionId)).nonces
  {
    hide Attempt, ProgressPercent, SlideHistory, Finalize;
    PayPartIs(s, id, amount, transactionId);
    var s1 := RecordPayment(s, id, amount, transactionId).value;
    assert (id, transactionId) in s1.nonces;
    if Finalize(s1, id).Ok? {
      FinalizeKeepsNonces(s1, id);
    }
  }

  lemma FinalizeKeepsNonces(s: State, id: InvoiceId)
    requires Finalize(s, id).Ok?
    ensures Finalize(s, id).value.nonces == s.nonces
  {
    hide Transfer, Relist, SplitFor, FeeRecipient, PaySplit;
  }

  /** Recorded transaction ids stay recorded. */
  lemma RecordedForGood(s: State, actions: seq<Action>, id: InvoiceId, transactionId: string)
    requires Inv(s) && Legal(actions) && id in s.invoices && (id, transactionId) in s.nonces
    ensures (id, transactionId) in Run(s, actions).nonces
  {
    hide Inv, Run, EscrowOf, InvestmentOf, AcceptedOn, PaymentsOf, NoncesOf, MovesOf;
    RunKeeps(s, actions);
    NonceOfSlice(s, id, transactionId);
    NonceOfSlice(Run(s, actions), id, transactionId);
  }

  lemma RecordedReplay(g: Genesis, before: seq<Action>, id: InvoiceId, again: i128, transactionId: string,
                       between: seq<Action>, after: seq<Action>)
    requires Legal(before) && Legal(between) && Legal(after) && transactionId != ""
    requires id in Reached(g, before).invoices && (id, transactionId) in Reached(g, before).nonces
    ensures Run(Reached(g, before), between + [PayPart(id, again, transactionId)] + after)
         == Run(Reached(g, before), between + after)
  {
    hide Inv, Apply, Reached, OwedWhileFunded;
    var s, replay := Reached(g, before), [PayPart(id, again, transactionId)];
    ReachedInv(g, before);
    RunKeeps(s, between);
    RecordedForGood(s, between, id, transactionId);
    StillOwing(Run(s, between), id);
    ReplayKeepsState(Run(s, between), id, again, transactionId);
    RunOne(Run(s, between), replay[0]);
    RunConcat(s, between, replay);
    RunConcat(s, between + replay, after);
    RunConcat(s, between, after);
  }

  /**
    Once a partial payment has been accepted under a transaction id, a later one under the same
    id can be deleted from the run, whatever its amount and whatever else happened in between.
   */
  lemma ReplayCanBeDeleted(g: Genesis, before: seq<Action>, id: InvoiceId, amount: i128, again: i128,
                          transactionId: string,
                           between: seq<Action>, after: seq<Action>)
    requires Legal(before) && Legal(between) && Legal(after) && transactionId != ""
    requires ProcessPartialPayment(Reached(g, before), id, amount, transactionId).Ok?
    ensures var s := ProcessPartialPayment(Reached(g, before), id, amount, transactionId).value;
      Run(s, between + [PayPart(id, again, transactionId)] + after) == Run(s, between + after)
  {
    hide Inv, Apply, Attempt, ProcessPartialPayment, Run, Reached;
    var s0 := Reached(g, before);
    ReachedInv(g, before);
    ApplyIs(s0, id, amount, transactionId);
    AcceptedIsRecorded(s0, id, amount, transactionId);
    var pay := PayPart(id, amount, transactionId);
    ApplyEvolves(s0, pay);
    RunOne(s0, pay);
    ReachedConcat(g, before, [pay]);
    RecordedReplay(g, before + [pay], id, again, transactionId, between, after);
  }

  lemma ApplyIs(s: State, id: InvoiceId, amount: i128, transactionId: string)
    requires ProcessPartialPayment(s, id, amount, transactionId).Ok?
    ensures Apply(s, PayPart(id, amount, transactionId)) == ProcessPartialPayment(s, id, amount, transactionId).value
  {
    hide Attempt, ProcessPartialPayment;
    PayPartIs(s, id, amount, transactionId);
  }

  lemma RunOne(s: State, a: Action)
    requires Admissible(a)
    ensures Run(s, [a]) == Apply(s, a)
  {
    hide Apply;
    assert [a][..0] == [];
    assert Run(s, []) == s;
  }

  /** Whether an action repeats a recorded partial payment. */
  predicate IsReplay(s: State, a: Action) {
    a.PayPart? && a.transactionId != "" && (a.id, a.transactionId) in s.nonces
  }

  /** A run without its replays. */
  function WithoutReplays(s: State, actions: seq<Action>): seq<Action>
    requires Legal(actions)
    decreases |actions|
  {
    if |actions| == 0 then []
    else if IsReplay(s, actions[0]) then WithoutReplays(s, actions[1..])
    else [actions[0]] + WithoutReplays(Apply(s, actions[0]), actions[1..])
  }

  lemma RunFirst(s: State, actions: seq<Action>)
    requires Legal(actions) && |actions| > 0
    ensures Run(s, actions) == Run(Apply(s, actions[0]), actions[1..])
  {
    hide Apply;
    RunOne(s, actions[0]);
    RunConcat(s, [actions[0]], actions[1..]);
    assert actions == [actions[0]] + actions[1..];
  }

  /** Deleting every replay from a run, payments and all else interleaved, leaves the same final state. */
  lemma {:induction false} ReplaysDoNotMatter(s: State, actions: seq<Action>)
    requires Inv(s) && Legal(actions)
    ensures Legal(WithoutReplays(s, actions))
    ensures Run(s, WithoutReplays(s, actions)) == Run(s, actions)
    decreases |actions|
  {
    hide Inv, Apply, Run;
    if |actions| == 0 {
      assert actions == [];
    } else {
      var a, rest := actions[0], actions[1..];
      RunFirst(s, actions);
      ApplyEvolves(s, a);
      if IsReplay(s, a) {
        StillOwing(s, a.id);
        ReplayKeepsState(s, a.id, a.payment, a.transactionId);
        ReplaysDoNotMatter(s, rest);
      } else {
        ReplaysDoNotMatter(Apply(s, a), rest);
        var kept := WithoutReplays(s, actions);
        assert kept[1..] == WithoutReplays(Apply(s, a), rest);
        RunFirst(s, kept);
      }
    }
  }
}
